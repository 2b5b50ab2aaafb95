# Finance client screen logic in Dafny

This project models the logic layer under the screens of a React Native
finance client. The layer holds the input sanitisers, the decimal parser, the
validators, sign rules, partitions, group-by aggregations and the offline
queue updates. Rendering, REST calls and storage I/O sit around it. Each
screen becomes one module. Requests are recorded as values, storage and
connectivity become fields or parameters, amounts are exact `real`s and dates
are integer millisecond timestamps.

Modules:

- `Common`: `Option`, the HTTP verbs, the `Json` shape of a response (an array
  or anything else), the movement type, and JS `||` on strings (`OrElse`).
- `Text`: the character-class sanitisers (`text.replace(/[^…]/g, "")`),
  `replace(",", ".")` (first occurrence only), `trim` over ECMAScript white
  space and line terminators, ASCII `toLowerCase`,
  and `parseFloat` / `parseInt` restricted to the digit, point and comma
  alphabets. NaN is `None`. A number's `String(x)` form is a decimal
  `Literal`.
- `Sorting`: in-place insertion sort of an `array` under a comparator
  (sorted + permutation), a sorted copy of a sequence, and `filter` (`Keep`).
- `TelaPagamento`: the multi-box payment allocator. Its state is
  `Allocation`, the key order of the JS object plus the map from box id to
  typed amount.
- `OfflineQueue`: the `ListaOffline` and `MovimentacaoOffline` screens. Both
  are classes over a shared `Storage` object whose fields are the two
  AsyncStorage keys.
- `ContasAPagar`, `Contador` (a class), `NovaMovimentacao`, `CriarConta`,
  `Adicionais`, `Caixas`, `CriarCaixa`, `RelaorioCategorias`, `Extrato`: one
  module per screen of the same name.

The model follows the code as written, including where it is looser than a
reader might expect:

- The payment screen never refuses an account whose remaining amount is
  already 0 or less. Only the empty allocation and the over-allocation are
  refused.
- Typing an amount for a box writes that box's key whether or not it is
  selected.
- A second replay while one is running is prevented only by disabled buttons
  (`loadingId`), not by a refusal in the handler.
- After a replay succeeds, the list as it was when the send began is
  filtered and written back. Storage is not re-read, and an entry discarded
  while the send was running comes back (`DiscardDuringSendRestored`).
- The reserved box name is checked after `trim().toLowerCase()`. A name of
  white space only passes both checks and is sent.

## Model

| member | source | states |
|---|---|---|
| Common.OrElse | src/screens/Adicionais/index.js:62 | `x \|\| fallback` on a string: the value when it is present and non-empty, else the fallback |
| Text.Filter | src/screens/TelaPagamento/index.js:80 | the sanitiser keeps only allowed characters and never lengthens the text |
| Text.FilterCounts | src/screens/TelaPagamento/index.js:80 | every allowed character keeps its number of occurrences; every other character is gone |
| Text.FilterAppend | src/screens/Contador/index.js:105 | sanitising a concatenation sanitises each part |
| Text.FilterKeepsAllowed | src/screens/Contador/index.js:110 | text already in the alphabet passes unchanged |
| Text.FilterIdempotent | src/screens/Contador/index.js:115 | sanitising twice is sanitising once |
| Text.IndexOfSpec | src/screens/Adicionais/index.js:275 | the index found is the first occurrence of the character, or the length when there is none |
| Text.ReplaceFirstSpec | src/screens/Adicionais/index.js:275 | `replace(",", ".")` keeps the length and changes only the first comma, which becomes a point |
| Text.ReplaceFirstInverse | src/screens/CriarConta/index.js:62 | replacing back the first replaced character restores the text when the target character was absent |
| Text.ReplaceFirstAbsent | src/screens/TelaPagamento/index.js:56 | a text without a comma is left as it is |
| Text.TrimStartSpec | src/screens/Adicionais/index.js:84-85 | leading trim drops exactly the white-space prefix (ECMAScript WhiteSpace and LineTerminator) |
| Text.TrimEndSpec | src/screens/Adicionais/index.js:84-85 | trailing trim drops exactly the white-space suffix (ECMAScript WhiteSpace and LineTerminator) |
| Text.TrimPadded | src/screens/Adicionais/index.js:84-85 | `trim` of padding + core + padding is the core when the core's ends are not white space |
| Text.TrimBlank | src/screens/CriarCaixa/index.js:27 | a white-space-only text trims to "" |
| Text.Lower | src/screens/CriarCaixa/index.js:27 | `toLowerCase` keeps the length and lower-cases each character |
| Text.DigitRunSpec | src/screens/TelaPagamento/index.js:56 | the digit run read by the parser is the longest all-digit prefix |
| Text.ParseUnsignedSpec | src/screens/TelaPagamento/index.js:56 | an unsigned parse is non-negative and is NaN exactly when the text starts with no number |
| Text.ParseAmountNonNegative | src/screens/TelaPagamento/index.js:56 | `parseFloat(t.replace(",", "."))` of a `[0-9.,]` text is NaN or at least 0 |
| Text.ParseAmountNaN | src/screens/TelaPagamento/index.js:56-57 | on `[0-9.,]` text the parse is NaN exactly when the text, after the comma becomes a point, starts no number (a digit, or a point followed by a digit) |
| Text.ParseAmountComma | src/screens/CriarConta/index.js:109 | "digits,digits" parses to the whole part plus the decimal fraction |
| Text.ParseFloatSpec | src/screens/TelaPagamento/index.js:56 | `parseFloat` skips leading white space and an optional sign; it is NaN exactly when no number starts after the sign, a minus negates the literal, and a plus or no sign keeps it |
| Text.ParseUnsignedWhole | src/screens/Contador/index.js:89 | an all-digit text parses to its natural value |
| Text.ParseUnsignedPoint | src/screens/Contador/index.js:89 | "digits.digits" parses to the whole part plus the decimal fraction |
| Text.ParseInt | src/screens/Contador/index.js:84 | `parseInt` of a digits-only text is NaN exactly when it is empty, and is never negative otherwise |
| Text.ParseIntDigits | src/screens/Contador/index.js:84 | `parseInt` of a digits-only text is the number those digits denote, and NaN for "" |
| Text.ParseShow | src/screens/NovaMovimentacao/index.js:50 | `parseFloat(String(x))` gives back x |
| Text.ParseSigned | src/screens/NovaMovimentacao/index.js:73 | a leading minus sign negates the parsed magnitude |
| Text.NoCommaInShow | src/screens/CriarConta/index.js:62 | `String(x)` of a number contains no comma |
| Sorting.InsertionSort | src/screens/ListaOffline/index.js:33 | `sort` in place under a total preorder: the array ends sorted and is a permutation of its old contents |
| Sorting.Insert | src/screens/ListaOffline/index.js:33 | one insertion step extends the sorted prefix by one and permutes the array |
| Sorting.SortedCopy | src/screens/ContasAPagar/index.js:74 | the sorted copy is sorted, has the same elements and the same length |
| Sorting.Keep | src/screens/Caixas/index.js:37 | `filter` keeps exactly the elements satisfying the predicate, and nothing more |
| Sorting.KeepAppend | src/screens/ListaOffline/index.js:77 | filtering a concatenation filters each part |
| Sorting.KeepAll | src/screens/ListaOffline/index.js:77 | filtering a list whose every element passes changes nothing |
| Sorting.KeepDistinct | src/screens/Adicionais/index.js:61-68 | filtering keeps a list of distinct elements distinct |
| Sorting.KeepPartition | src/screens/Caixas/index.js:34-37 | a predicate and its negation split a list into two parts whose elements together are the list |
| Sorting.SortedFilter | src/screens/ListaOffline/index.js:77 | filtering a sorted list leaves it sorted |
| TelaPagamento.ToggleCaixa | src/screens/TelaPagamento/index.js:63-75 | an unselected box is added with "" at the end of the key order; a selected box loses its key and amount; no other key or amount changes |
| TelaPagamento.ToggleTwice | src/screens/TelaPagamento/index.js:63-75 | toggling an unselected box twice restores the exact original allocation |
| TelaPagamento.RemoveAppended | src/screens/TelaPagamento/index.js:66-68 | deleting a key just appended restores the key order |
| TelaPagamento.OnChangeValorCaixa | src/screens/TelaPagamento/index.js:78-85 | the box's amount becomes the typed text reduced to `[0-9.,]`; every other key and amount is unchanged |
| TelaPagamento.EditsKeepSanitised | src/screens/TelaPagamento/index.js:63-85 | toggling and typing keep every amount within `[0-9.,]` |
| TelaPagamento.NumbersParse | src/screens/TelaPagamento/index.js:55-56 | each value's number is its `parseFloat(v.replace(",", "."))` |
| TelaPagamento.TotalAlocado | src/screens/TelaPagamento/index.js:53-60 | the `forEach` loop computes the sum over `Object.values` of every amount that parses, NaN adding nothing |
| TelaPagamento.SumParsed | src/screens/TelaPagamento/index.js:54-59 | the accumulation loop equals the specification sum of the parsed values |
| TelaPagamento.SumNonNegative | src/screens/TelaPagamento/index.js:57 | a sum of non-negative parsed values is non-negative |
| TelaPagamento.SanitisedNumbers | src/screens/TelaPagamento/index.js:80 | sanitised amounts parse to NaN or non-negative numbers |
| TelaPagamento.AllocatedTotalNonNegative | src/screens/TelaPagamento/index.js:53-60 | with sanitised amounts the allocated total is at least 0 |
| TelaPagamento.Remaining | src/screens/TelaPagamento/index.js:31-32 | the remaining amount is `valorRestante` when defined, else `valor` |
| TelaPagamento.KeptExactly | src/screens/TelaPagamento/index.js:92-103 | the kept payments are exactly the entries whose parsed value is > 0, one `{caixaId, valor}` each |
| TelaPagamento.KeptSumIsTotal | src/screens/TelaPagamento/index.js:96-101 | with non-negative parsed values the kept sum equals the sum of all parsed values |
| TelaPagamento.KeptSumIsAllocatedTotal | src/screens/TelaPagamento/index.js:53-60 | for sanitised amounts the submitted sum equals `totalAlocado` |
| TelaPagamento.ColetarPagamentos | src/screens/TelaPagamento/index.js:89-103 | the collection loop pushes exactly the kept payments in key order and sums them |
| TelaPagamento.HandleConfirmarPagamento | src/screens/TelaPagamento/index.js:87-135 | refused when nothing is kept; refused when the kept sum exceeds remaining + 0.05; otherwise exactly one POST to `/contas/{id}/pagar` with the whole kept list and the payment date |
| TelaPagamento.GreenTotalIsAccepted | src/screens/TelaPagamento/index.js:115 | a sanitised allocation whose total is not over remaining + 0.05 passes the sum check |
| TelaPagamento.OverAllocatedIsKeptSum | src/screens/TelaPagamento/index.js:183 | with sanitised amounts the total turns red exactly when the line items that would be sent add up to more than what is left plus 0.01 |
| TelaPagamento.TwoBoxesKept | src/screens/TelaPagamento/index.js:92-103 | two boxes with the same positive amount give two payments in key order, summing to twice the amount |
| OfflineQueue.Storage.constructor | src/screens/ListaOffline/index.js:28-30 | storage starts with the given stored lists |
| OfflineQueue.NewestFirstIsTotalPreorder | src/screens/ListaOffline/index.js:33 | the newest-first comparator is a total preorder |
| OfflineQueue.Without | src/screens/ListaOffline/index.js:77 | the filtered list holds every entry with another id and none with the removed id |
| OfflineQueue.WithoutSorted | src/screens/ListaOffline/index.js:33-103 | removing an id from a newest-first list keeps it newest first |
| OfflineQueue.WithoutIdempotent | src/screens/ListaOffline/index.js:77-103 | removing the same id twice is removing it once |
| OfflineQueue.ListaOffline.constructor | src/screens/ListaOffline/index.js:19-21 | the screen starts with an empty list and nothing being sent |
| OfflineQueue.ListaOffline.CarregarPendencias | src/screens/ListaOffline/index.js:25-41 | a stored list is shown as a newest-first permutation of itself; nothing stored keeps the list |
| OfflineQueue.ListaOffline.HandleEnviarItem | src/screens/ListaOffline/index.js:50-73 | offline (`false`) sends nothing; otherwise `loadingId` is the item's id, the current list is captured, every send button and this item's discard button are disabled, and the request replays its box, description, amount, type and original date |
| OfflineQueue.ListaOffline.ConcluirEnvio | src/screens/ListaOffline/index.js:75-93 | on success the list captured when the send began loses every entry with that id and becomes the shown and stored list; on failure list and storage are unchanged; `loadingId` is reset and the send buttons enabled again in every case |
| OfflineQueue.ListaOffline.HandleExcluir | src/screens/ListaOffline/index.js:96-111 | discard removes the entries with that id and stores the result, with no request |
| OfflineQueue.DiscardDuringSendRestored | src/screens/ListaOffline/index.js:77-82 | an entry discarded while another is being sent is back in the shown and stored list once that send succeeds |
| OfflineQueue.FindPrincipal | src/screens/MovimentacaoOffline/index.js:38-40 | the first box whose lower-cased name is "principal", or none when no box is |
| OfflineQueue.DefaultCaixaChosen | src/screens/MovimentacaoOffline/index.js:41 | a box is selected exactly when the list is non-empty, and it is one of the listed boxes |
| OfflineQueue.DefaultCaixa | src/screens/MovimentacaoOffline/index.js:37-41 | the first box named "principal" in any casing when there is one, else the first box, else none |
| OfflineQueue.MovimentacaoOffline.constructor | src/screens/MovimentacaoOffline/index.js:17-24 | the form starts empty as an inflow with no box |
| OfflineQueue.MovimentacaoOffline.CarregarCaixasOffline | src/screens/MovimentacaoOffline/index.js:30-52 | stored boxes are listed and the default box selected; nothing stored changes nothing |
| OfflineQueue.MovimentacaoOffline.HandleSalvarOffline | src/screens/MovimentacaoOffline/index.js:54-96 | refusals for empty fields, no box and an amount that does not parse leave storage untouched; otherwise exactly one unsynchronised record, with the value times -1 for an outflow and the box's id and name, is appended to the stored list |
| ContasAPagar.DueFirstIsTotalPreorder | src/screens/ContasAPagar/index.js:28-30 | the due-date comparator is a total preorder |
| ContasAPagar.CarregarContas | src/screens/ContasAPagar/index.js:21-34 | an array response is shown sorted by due date as a permutation of itself; any other body empties the list |
| ContasAPagar.PaymentTarget | src/screens/ContasAPagar/index.js:49-56 | a paid payable is never forwarded; any other is forwarded unchanged |
| ContasAPagar.GroupKey | src/screens/ContasAPagar/index.js:62 | the group is the institution, or "Outros" when it is missing or empty |
| ContasAPagar.KeysExactlyOnce | src/screens/ContasAPagar/index.js:59-65 | each group name appears once and every payable's group is among them |
| ContasAPagar.KeysFromContas | src/screens/ContasAPagar/index.js:62-64 | every group name comes from some payable |
| ContasAPagar.Rows | src/screens/ContasAPagar/index.js:74 | there is one row per group name |
| ContasAPagar.AgruparContas | src/screens/ContasAPagar/index.js:60-73 | the `forEach` opens each group at its first payable; each group's historical total sums `valor` and its outstanding total sums `valorRestante ?? valor` over unpaid payables |
| ContasAPagar.MostOwedFirstIsTotalPreorder | src/screens/ContasAPagar/index.js:74 | the outstanding-descending comparator is a total preorder |
| ContasAPagar.DadosInstituicoes | src/screens/ContasAPagar/index.js:59-75 | the rows are a permutation of the group rows, sorted by outstanding total, largest first |
| ContasAPagar.GroupsPartitionTotals | src/screens/ContasAPagar/index.js:59-73 | the group totals add up to the total over all payables: each payable is counted in exactly one group |
| ContasAPagar.GroupTotalAbsent | src/screens/ContasAPagar/index.js:63-64 | a name no payable has totals 0 |
| ContasAPagar.StartOfDay | src/screens/ContasAPagar/index.js:81-84 | midnight is the largest day boundary not after the instant |
| ContasAPagar.EarlierDay | src/screens/ContasAPagar/index.js:92 | comparing the due day with today is comparing the due instant with today's midnight |
| ContasAPagar.Label | src/screens/ContasAPagar/index.js:79-95 | PAGO, then PARCIAL, then VENCIDA when due before today, otherwise PENDENTE, each exactly under its condition |
| ContasAPagar.ValorExibirMatchesGroups | src/screens/ContasAPagar/index.js:70-98 | the displayed amount is `valor` when paid and is otherwise exactly what the payable adds to the outstanding total |
| Contador.NotesTotalNonNegative | src/screens/Contador/index.js:80-86 | with digits-only quantities the notes total is never negative |
| Contador.NotesTotalBlank | src/screens/Contador/index.js:84 | blank quantities all count 0 |
| Contador.AmountNonNegative | src/screens/Contador/index.js:89-96 | a `[0-9.,]` amount counts at least 0 |
| Contador.TotalsNonNegative | src/screens/Contador/index.js:80-100 | with sanitised inputs the notes, physical and counted totals are never negative |
| Contador.Contador.constructor | src/screens/Contador/index.js:22-37 | every field starts blank and every total 0 |
| Contador.Contador.SomaNotas | src/screens/Contador/index.js:80-86 | the loop over 200, 100, 50, 20, 10, 5, 2 sums quantity times denomination |
| Contador.Contador.CalcularTotal | src/screens/Contador/index.js:79-101 | physical = notes + coins, counted = physical + online; inputs unchanged |
| Contador.Contador.HandleChangeQtd | src/screens/Contador/index.js:104-107 | only that denomination's quantity changes, to the digits of the typed text |
| Contador.Contador.HandleChangeMoedas | src/screens/Contador/index.js:109-112 | the coins field keeps only `[0-9.,]`; nothing else changes |
| Contador.Contador.HandleChangeOnline | src/screens/Contador/index.js:114-117 | the online field keeps only `[0-9.,]`; nothing else changes |
| Contador.Contador.LimparTudo | src/screens/Contador/index.js:119-128 | every field becomes "", every total 0, and the difference is minus the balance |
| Contador.DiferencaFromInputs | src/screens/Contador/index.js:127-128 | the difference is the counted notes, coins and online amount minus the balance; it shows as a shortfall exactly when less was counted than the balance, which with sanitised inputs needs a positive balance |
| Contador.DraftRoundTrip | src/screens/Contador/index.js:46-67 | the draft `salvarDados` writes, loaded by `carregarDadosSalvos` on a fresh screen, restores the quantities, coins and online amount, blank ones included, with consistent totals |
| Contador.Contador.CarregarDadosSalvos | src/screens/Contador/index.js:46-58 | a draft overwrites only the fields present and truthy; nothing stored changes nothing |
| NovaMovimentacao.LoadEdit | src/screens/NovaMovimentacao/index.js:44-61 | edit copies the id and description, shows the absolute value, is an outflow exactly when the value is negative, defaults the category to "Geral"; a new entry is blank with "Geral" |
| NovaMovimentacao.SignRule | src/screens/NovaMovimentacao/index.js:78-82 | outflow sends -\|v\|, inflow \|v\|, NaN stays NaN |
| NovaMovimentacao.SignRuleIdempotent | src/screens/NovaMovimentacao/index.js:78-82 | applying the sign rule twice equals applying it once |
| NovaMovimentacao.TargetCaixa | src/screens/NovaMovimentacao/index.js:85 | the box is the route's id, else the edited entry's, else null |
| NovaMovimentacao.HandleSalvar | src/screens/NovaMovimentacao/index.js:63-99 | refused exactly when amount or description is empty; otherwise the signed parse (NaN included), the box, description, type, category and observation as typed, with PUT `/movimentacoes/{id}` when editing, POST `/movimentacoes` otherwise |
| NovaMovimentacao.CategoryDefault | src/screens/NovaMovimentacao/index.js:55-59 | new entries and entries without a category get "Geral" |
| NovaMovimentacao.EditRoundTrip | src/screens/NovaMovimentacao/index.js:50-82 | saving an edited entry unchanged sends its original signed value to that entry |
| NovaMovimentacao.OfflineSignAgrees | src/screens/MovimentacaoOffline/index.js:72-74 | for non-negative amounts the offline sign rule agrees with the online one |
| NovaMovimentacao.OfflineSignDiffers | src/screens/MovimentacaoOffline/index.js:72-74 | for a negative typed amount the offline rule stores the opposite sign to the online one |
| CriarConta.LimparCampos | src/screens/CriarConta/index.js:39-48 | every field returns to its default and the due date to now |
| CriarConta.SanitiseValorSpec | src/screens/CriarConta/index.js:202-203 | the sanitised amount holds digits, commas and at most one point |
| CriarConta.SanitiseValorPoint | src/screens/CriarConta/index.js:202-203 | there is a point exactly when the typed text had a comma, and it stands where the first comma was among the kept characters |
| CriarConta.SanitiseValor | src/screens/CriarConta/index.js:202-203 | the handler never lengthens the text, and a text of digits is kept as typed |
| CriarConta.PointLostOnNextKeystroke | src/screens/CriarConta/index.js:203 | typing "5" after "12." yields "125" |
| CriarConta.SanitisedValorNonNegative | src/screens/CriarConta/index.js:203 | a sanitised amount never parses negative |
| CriarConta.LoadEdit | src/screens/CriarConta/index.js:51-86 | edit mode copies the fields with "" defaults, shows a non-zero amount with a decimal comma and a zero or missing one blank, status "pendente" by default and due date now when missing or invalid; creation clears the form |
| CriarConta.EditValueRoundTrip | src/screens/CriarConta/index.js:60-109 | a non-zero amount shown with its point turned into a comma parses back to the same number |
| CriarConta.HandleSalvar | src/screens/CriarConta/index.js:100-129 | refuses missing fields, then an amount that does not parse; otherwise sends institution, description, status and due date as typed, the parsed amount, leaves out an empty observation, and PUTs `/contas/{id}` when editing or POSTs `/contas` |
| CriarConta.EditSaveRoundTrip | src/screens/CriarConta/index.js:51-129 | saving a loaded payable unchanged PUTs it with its own value |
| Adicionais.GroupNamesSpec | src/screens/Adicionais/index.js:61-68 | group names are distinct and every item's group is among them |
| Adicionais.MembersIsFilter | src/screens/Adicionais/index.js:61-68 | a group holds exactly the items with its name, in input order |
| Adicionais.MembersAbsent | src/screens/Adicionais/index.js:63-65 | a name no item has holds nothing |
| Adicionais.EachItemInOneGroup | src/screens/Adicionais/index.js:61-68 | every item is in its group, under `grupo` or "Sem Grupo", and a group holds only items of its name |
| Adicionais.Agrupar | src/screens/Adicionais/index.js:61-68 | the `reduce` creates each group at its first item and pushes every item onto its group |
| Adicionais.LexLeqTotal | src/screens/Adicionais/index.js:228 | the default string order is total |
| Adicionais.LexLeqTransitive | src/screens/Adicionais/index.js:228 | the default string order is transitive |
| Adicionais.GruposOrdenados | src/screens/Adicionais/index.js:227-228 | the group names are shown sorted, with the same names |
| Adicionais.DefinedOrBlank | src/screens/Adicionais/index.js:44-46 | a defined field is copied; an undefined one becomes "" |
| Adicionais.AbrirModal | src/screens/Adicionais/index.js:32-51 | with an item the fields take its values, missing ones ""; without one every field is cleared |
| Adicionais.OnChangeValorSpec | src/screens/Adicionais/index.js:275 | the first comma becomes a point and nothing else changes |
| Adicionais.SalvarAdicional | src/screens/Adicionais/index.js:83-105 | refused exactly when the trimmed key is blank or both amount and content are blank; otherwise trimmed key, parsed amount or none, trimmed content or none, group or "geral", PUT `/adicionais/{id}` when editing, POST `/adicionais` otherwise |
| Adicionais.SavedKeyTrimmed | src/screens/Adicionais/index.js:84-100 | a key padded with white space saves exactly as the bare key |
| Caixas.FindPrincipal | src/screens/Caixas/index.js:34 | the principal is the first box named exactly "Principal", none when there is none |
| Caixas.SecundariasPartition | src/screens/Caixas/index.js:37 | the secondaries are exactly the boxes not named "Principal", and together with the principal ones they are all boxes |
| Caixas.PrincipalNotSecundaria | src/screens/Caixas/index.js:34-37 | the principal box is never also a secondary |
| Caixas.CarregarCaixas | src/screens/Caixas/index.js:27-42 | the secondaries are replaced; the principal and its cached id change only when a principal is found |
| Caixas.StalePrincipalKept | src/screens/Caixas/index.js:39-42 | a reload without a principal keeps the previous principal |
| Caixas.AbrirCaixa | src/screens/Caixas/index.js:65-71 | the box's id is passed; the principal is named "Geral", other boxes keep their name |
| Caixas.NeverOpensAsPrincipal | src/screens/Caixas/index.js:65-71 | no box opens the statement under the name "Principal" |
| Caixas.CardColor | src/screens/Caixas/index.js:25 | the card colour is one of the five colours |
| Caixas.CardColorCycle | src/screens/Caixas/index.js:128 | colours repeat every five cards and differ within five |
| CriarCaixa.HandleSalvar | src/screens/CriarCaixa/index.js:19-47 | refused exactly when the name is empty or trims and lower-cases to "principal"; otherwise one POST `/caixas` with the untrimmed name and description |
| CriarCaixa.ReservedWhateverCasing | src/screens/CriarCaixa/index.js:27-33 | any casing of "principal" with any white-space padding is refused |
| CriarCaixa.BlankNameSent | src/screens/CriarCaixa/index.js:20-27 | a white-space-only name passes both checks and is sent |
| CriarCaixa.Concluir | src/screens/CriarCaixa/index.js:51-59 | success goes back; a refusal shows the server's error or the default message; a failure shows the connection message |
| RelaorioCategorias.LoanExpensePartition | src/screens/RelaorioCategorias/index.js:45-48 | loans are exactly the `_id` "Empréstimos" items, expenses the others, and together they are all items |
| RelaorioCategorias.SumAbsNonNegative | src/screens/RelaorioCategorias/index.js:52-55 | the expense total is at least 0, and is 0 exactly when every total is 0 |
| RelaorioCategorias.SumSignedBounded | src/screens/RelaorioCategorias/index.js:68-71 | the signed loan total is bounded in size by the sum of absolute values |
| RelaorioCategorias.LinhaGasto | src/screens/RelaorioCategorias/index.js:58-62 | an expense row is named by `_id` or "Outros", with the total and its absolute value |
| RelaorioCategorias.LinhaEmprestimo | src/screens/RelaorioCategorias/index.js:74-78 | a loan row is named "Empréstimos", with the total and its absolute value |
| RelaorioCategorias.GastosFormatadosAt | src/screens/RelaorioCategorias/index.js:58-62 | the i-th expense row formats the i-th expense |
| RelaorioCategorias.EmprestimosFormatadosAt | src/screens/RelaorioCategorias/index.js:74-78 | the i-th loan row formats the i-th loan |
| RelaorioCategorias.CarregarDados | src/screens/RelaorioCategorias/index.js:43-83 | an array response sets both lists and totals; any other body empties both lists and keeps the totals |
| RelaorioCategorias.LoadedTotals | src/screens/RelaorioCategorias/index.js:52-72 | after a load the expense total is non-negative and the loan total is bounded by its absolute sum |
| RelaorioCategorias.LoadedRows | src/screens/RelaorioCategorias/index.js:58-79 | after a load every row formats the matching loan or expense item |
| RelaorioCategorias.Porcentagem | src/screens/RelaorioCategorias/index.js:98-103 | 0 for a zero reference, else the absolute value over \|reference\| times 100 |
| RelaorioCategorias.SumPorcentagemGastos | src/screens/RelaorioCategorias/index.js:98-103 | the expense percentages, times a positive reference, add to 100 times the absolute sum |
| RelaorioCategorias.SharesSumToHundred | src/screens/RelaorioCategorias/index.js:52-103 | expense percentages against a non-zero expense total add up to 100 |
| RelaorioCategorias.GastosSumToHundred | src/screens/RelaorioCategorias/index.js:43-103 | after a load with a non-zero expense total, the shown expense percentages add up to 100 |
| Extrato.TituloTela | src/screens/Extrato/index.js:24-27 | "Extrato Geral" exactly for the name "Principal" or the filter "todos", else "Extrato: " + (name or "Caixa") |
| Extrato.Url | src/screens/Extrato/index.js:42-53 | `/extrato/principal` for "Principal", else `/extrato/{caixaId}` with an id, and `/extrato` exactly when neither |
| Extrato.SaldoAppend | src/screens/Extrato/index.js:61-64 | the balance of a concatenation is the sum of the balances |
| Extrato.SaldoIgnoresNaN | src/screens/Extrato/index.js:62 | items without a numeric value add nothing |
| Extrato.Carregar | src/screens/Extrato/index.js:58-69 | an array response lists the items with their summed balance; anything else gives an empty list and balance 0 |
| Extrato.AposExcluir | src/screens/Extrato/index.js:100-112 | success reloads the same statement URL; otherwise the server's error or the default message |
| Extrato.FromCaixa | src/screens/Caixas/index.js:65-71 | the statement opened from the overview gets the box id and no filter |
| Extrato.PrincipalFromOverview | src/screens/Caixas/index.js:65-71 | the principal box opens as "Extrato: Geral" on `/extrato/{id}` with the add button shown |
| Extrato.EveryBoxByItsId | src/screens/Extrato/index.js:47-49 | every box opened from the overview loads its statement by id and shows the add button |
| Extrato.AddButtonOnBoxStatement | src/screens/Extrato/index.js:225 | the add button shows exactly off the general statement and off the box named "Principal"; when shown, the statement listed is that box's own |

## Left out

- Rendering, styles, `Alert` dialogs and their confirmation steps, navigation, `Header`, and the navigator wiring. A message appears in the model only where the screen chooses it (`Effect`).
- `fetch`, AsyncStorage and NetInfo. Requests are recorded values, responses and connectivity are parameters, and storage is a field. Async timing, races and concurrent writes to the offline list are not modelled.
- The `loading`/`refreshing` spinners. They carry no logic.
- IEEE-754 doubles, `toFixed` and locale formatting. Amounts are exact reals, so the 0.05 tolerance is an exact comparison.
- Text.ParseFloat: models `parseFloat` on decimal text with leading white space and a sign only. Exponents, `Infinity` and hexadecimal forms are not modelled, because every amount field here is sanitised to `[0-9.,]` or holds typed decimal text.
- ContasAPagar.AgruparContas: groups live in a plain `{}`, so an institution named after an `Object.prototype` member ("constructor", "toString", "__proto__", …) finds an inherited value, opens no group and is listed in no row. Group names are modelled as a map that starts empty, so such names are not modelled.
- ContasAPagar.KeysExactlyOnce: states that every payable's group is among the keys; that does not hold in the code for institutions named after `Object.prototype` members, which the model does not cover (see ContasAPagar.AgruparContas).
- ContasAPagar.DadosInstituicoes: the rows omit payables of institutions named after `Object.prototype` members in the code; the model does not cover those names.
- ContasAPagar.GroupsPartitionTotals: the totals partition holds for group names other than `Object.prototype` members; for those names the code drops the payable from every row.
- Adicionais.Agrupar: a `grupo` named after an `Object.prototype` member makes the `reduce` call `push` on an inherited value, which throws, so no grouping is set. The model's map starts empty and does not cover those names.
- Adicionais.EachItemInOneGroup: holds for group names other than `Object.prototype` members, which the model does not cover (see Adicionais.Agrupar).
- Text.Lower: ASCII letters only. Unicode case mapping is not modelled.
- Text.Literal: `String(x)` of a number is taken as a decimal literal given with the number. The JS shortest-round-trip algorithm and the exponent form of very large or small numbers are not modelled.
- `JSON.stringify`/`JSON.parse` and the difference between `null` and `undefined`. An absent field is `None`.
- Dates are integer milliseconds. `new Date()` is a `now` parameter, `toISOString` is the identity, and midnight is computed in UTC: time zones and `setHours` local time are not modelled.
- OfflineQueue.MovimentacaoOffline.HandleSalvarOffline: the record id (`Date.now().toString()`) is a parameter. Its uniqueness is not guaranteed by the code and is not assumed.
- OfflineQueue.ListaOffline.HandleExcluir: the confirmation dialog is taken as atomic. In the code the confirmed deletion filters the list as it was when the dialog opened, so an entry whose send succeeds while the dialog is open comes back on confirmation; the model does not capture that list.
- Sorting.InsertionSort: the result is proved sorted and a permutation. Stability of JS `sort` is not stated.
- Adicionais.LexLeq: compares characters by code point. UTF-16 surrogate order is not modelled, and neither is JS key ordering of integer-like object keys (`Object.keys`), which puts them first.
- ContasAPagar.Keys: the group names are taken in order of first appearance. JS lists integer-like keys (`"2024"`) first in ascending order, which the model does not do; row order is then fixed by the sort in ContasAPagar.DadosInstituicoes, up to ties.
- Extrato.Carregar: `Number(item.valor) || 0` is taken as an input (`Option<real>`). The `Number` conversion of strings is not modelled.
- CriarCaixa.Concluir: a response body that fails to parse is lumped with a network failure, as the code's `catch` does.
- `excluirAdicional` in src/screens/Adicionais/index.js:138 is a confirmed DELETE followed by a reload, with no logic to state.
- `handleExcluirMovimentacao` in src/screens/Extrato/index.js:93-98 sends a fixed DELETE to `/movimentacoes/{id}` after confirmation, with no logic to state. Its outcome is Extrato.AposExcluir.
- `API_URL` is left out of every URL, which is given as a path.
- The other screens (`RelatorioPdf`, `PainelPrincipal`, `HomeScreen`, `GerenciarContas`, `RelatorioCategorias`) and `App.js` are not part of this model. They are I/O and display only.
