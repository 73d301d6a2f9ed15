# Permit register — a Dafny model

This project models the rules inside a small accounting-office front-end that
keeps a register of municipal operating permits (*alvarás*) for client
companies (*clientes*). The model covers:

- the permit status classifier (pending / valid / expiring / expired, with a
  30-day window) and the helpers that display it;
- the CNPJ mask, which formats a Brazilian company identifier;
- the four client-side record caches, for permits, companies, secondary
  activities and company documents;
- the permit page, with its two tabs ("em abertura" and "em funcionamento"),
  its statistics, its search and status filter, its submit guards and the
  finalize transition;
- the company page and company form;
- the national-registry (CNPJ) lookup, and the conversion of its records into
  form fields;
- the activity-code (CNAE) picker.

Calendar dates are integer day numbers (`Types.Day`), and "today" is a
parameter of every operation that reads the clock. Each remote call is a
parameter that stands for its outcome:

- `Gateway.Reply` is a JSON client call that returns a value or throws.
- `Gateway.Http` is a raw `fetch` that is answered, answered with a non-2xx
  status, or rejected.
- `CnpjApi.Response` is the registry proxy's status code and body.

Something thrown is either an `Error` with a message or some other value.
The model keeps that distinction because every handler tests
`instanceof Error`.

The caches share one generic module (`Cache`). Every successful call updates
the list and clears `error`. A failed add, update or delete leaves the list
alone, records a message in `error` and rethrows. A failed load also keeps
the list and records the message, but does not rethrow. Page handlers return the new page state together with
the remote call they issue (`Call` / `Request`), so "sends no request" is a
statement about the result.

Modules:

| file | module | models |
|---|---|---|
| wrappers.dfy | Wrappers | `Option` |
| seqs.dfy | Seqs | `Array.filter`, `find`, replace/remove by key, subsequence |
| text.dfy | Text | `replace(/\D/g, '')`, ASCII `toLowerCase`, `includes`, decimal text |
| types.dfy | Types | the records of `src/types` |
| gateway.dfy | Gateway | outcomes of remote calls |
| alvara_utils.dfy | AlvaraUtils | `src/lib/alvara-utils.ts` |
| cache.dfy | Cache | the shared shape of the four cache hooks |
| use_alvaras.dfy | UseAlvaras | `src/hooks/useAlvaras.ts` |
| use_clientes.dfy | UseClientes | `src/hooks/useClientes.ts` |
| use_atividades.dfy | UseAtividades | `src/hooks/useAtividadesSecundarias.ts` |
| use_documentos.dfy | UseDocumentos | `src/hooks/useDocumentosCliente.ts` |
| alvaras_page.dfy | AlvarasPage | `src/pages/Alvaras.tsx` |
| alvara_table.dfy | AlvaraTable | `src/components/AlvaraTable.tsx` |
| cliente_table.dfy | ClienteTable | `src/components/ClienteTable.tsx` |
| cliente_form.dfy | ClienteForm | `src/components/ClienteForm.tsx` |
| clientes_page.dfy | ClientesPage | `src/pages/Clientes.tsx` |
| cnpj_api.dfy | CnpjApi | `src/lib/cnpj-api.ts` |
| cnae_select.dfy | CnaeSelect | `src/components/CnaeSelect.tsx` |

The permit record's `type` field is called `tipo`, because `type` is a Dafny
keyword.

The `Alvara` record carries `clienteId`, and the `Cliente` record carries
`email`. Neither field appears in the type declarations, but the pages read
both.

### The 30-day boundary

The code compares timestamps that include the time of day:

- `isBefore(expirationDate, today)`
- `isBefore(expirationDate, today + 30 days)`

Here `today` is the current instant. A date stored as midnight is therefore
already "before" the current instant on its own day. With time of day
included, a permit that expires today counts as expired, and one that expires
exactly 30 days from now counts as expiring. On whole days, as in this model:

- expired means `exp < today`;
- expiring means `today <= exp < today + 30`;
- valid means `exp >= today + 30`.

So the boundary day `today + 30` is valid. This is what the comparisons say
when both sides are at the same time of day. The one-day shift that the time
of day introduces is listed under "Left out".

## Model

| member | source | states |
|---|---|---|
| AlvaraUtils.CalculateStatus | src/lib/alvara-utils.ts:4-31 | each of the four statuses holds exactly when its condition on the dates holds: pending iff no issue date; expired iff issued and expiring strictly before today; expiring iff issued and `today <= exp < today+30`; valid iff issued and (no expiration date or `exp >= today+30`) |
| AlvaraUtils.StatusMonotone | src/lib/alvara-utils.ts:17-30 | for an issued permit, a later expiration date never moves the status backwards in the order expired, expiring, valid |
| AlvaraUtils.StatusShift | src/lib/alvara-utils.ts:17-30 | moving today and the expiration date by the same number of days leaves the status unchanged |
| AlvaraUtils.DaysUntilExpiration | src/lib/alvara-utils.ts:33-36 | null iff the date is absent; otherwise the number that, added to today, gives the expiration date |
| AlvaraUtils.StatusFromDays | src/lib/alvara-utils.ts:17-36 | for an issued permit with an expiration date, the status is determined by the day count alone (negative: expired, under 30: expiring, otherwise valid) |
| AlvaraUtils.StatusLabel | src/lib/alvara-utils.ts:38-46 | every label is non-empty and well encoded (the corrected table; see Findings) |
| AlvaraUtils.StatusLabelInjective | src/lib/alvara-utils.ts:38-46 | distinct statuses have distinct labels |
| AlvaraUtils.StatusLabelAsWritten | src/lib/alvara-utils.ts:38-46 | the table as written: non-empty labels that agree with the corrected table except for "valid", which is one character longer and not well encoded |
| AlvaraUtils.StatusLabelMisencoded | src/lib/alvara-utils.ts:41 | the label of "valid" as written is the correct label's UTF-8 bytes read as Latin-1, so it is not well encoded; the other three labels are right |
| AlvaraUtils.FormatCnpj | src/lib/alvara-utils.ts:48-54 | with exactly 14 digits the result has the `NN.NNN.NNN/NNNN-NN` shape and its digits are the input's digits; otherwise it is the input's digits alone |
| AlvaraUtils.MaskKeepsDigits | src/lib/alvara-utils.ts:50-53 | removing the punctuation of the mask gives back the 14 digits |
| AlvaraUtils.MaskShape | src/lib/alvara-utils.ts:50-53 | the mask of 14 digits is 18 characters long, with `.`, `.`, `/`, `-` at positions 2, 6, 10, 15 and digits elsewhere |
| AlvaraUtils.FormatCnpjIdempotent | src/lib/alvara-utils.ts:48-54 | formatting a formatted value changes nothing |
| AlvaraUtils.FormatCleanFormat | src/lib/alvara-utils.ts:48-54 | cleaning a formatted value and formatting it again gives the same value |
| Text.Digits | src/components/ClienteForm.tsx:164-166 | the result holds only digits, is no longer than the input, and is the input itself when the input is all digits |
| Text.DigitsIsSubseq | src/lib/cnpj-api.ts:44 | the cleaned value keeps the input's digits in their order |
| Text.DigitsMultiset | src/components/ClienteForm.tsx:164-166 | stripping keeps each digit exactly as often as the input has it and drops every other character |
| Text.DigitsIdempotent | src/components/ClienteForm.tsx:164-166 | cleaning twice is cleaning once |
| Text.DigitsAppend | src/lib/alvara-utils.ts:49 | cleaning distributes over concatenation |
| Text.DecimalRoundTrip | src/components/AlvaraTable.tsx:34-36 | reading back the decimal text of a number gives the number |
| Seqs.Filter | src/pages/Alvaras.tsx:78-95 | every kept element satisfies the predicate and comes from the input, and every input element satisfying it is kept |
| Seqs.FilterIsSubseq | src/pages/Alvaras.tsx:53-57 | a filter keeps list order (it is a subsequence of its input) |
| Seqs.FilterPartition | src/pages/Alvaras.tsx:53-57 | filtering by a predicate and by its negation splits the list: the two multisets add up to the input's, and so do the lengths |
| Seqs.PrefixSubseq | src/components/CnaeSelect.tsx:50 | a prefix of a subsequence is a subsequence |
| Seqs.FilterMultiset | src/components/ClienteForm.tsx:375 | a filter keeps each passing value exactly as often as the input has it, and no failing value |
| Seqs.RemoveAppendedKey | src/hooks/useAtividadesSecundarias.ts:38-54 | removing the key of an element just appended under a key no other element has gives back the earlier list |
| Seqs.ReplaceKey | src/hooks/useAlvaras.ts:69 | replacing by key keeps the length, replaces exactly the elements with that key and leaves the others in place |
| Seqs.RemoveKey | src/hooks/useAlvaras.ts:85 | removing by key leaves no element with that key, keeps every other element, and keeps order |
| Seqs.RemoveKeyLength | src/hooks/useAlvaras.ts:85 | the length drops by exactly the number of elements with that key |
| Seqs.FindFirst | src/hooks/useClientes.ts:70-72 | no result iff nothing matches; otherwise the result matches and nothing before it does |
| Gateway.Checked | src/hooks/useAtividadesSecundarias.ts:30-37 | a raw `fetch` becomes a value iff it was answered with a 2xx status; a non-2xx answer throws the given message; a rejection rethrows the same value |
| Cache.Load | src/hooks/useClientes.ts:15-28 | on success the list is the normalised fetched list and the error is cleared; on failure the list is kept and the error message recorded |
| Cache.Add | src/hooks/useClientes.ts:30-41 | on success exactly one element is appended and returned; on failure the list is kept, the message recorded and the error rethrown |
| Cache.Update | src/hooks/useClientes.ts:43-56 | on success the elements with the id are replaced and all else is kept; on failure the list is kept and the error rethrown |
| Cache.Delete | src/hooks/useClientes.ts:58-68 | on success exactly the elements with the id are removed, in order; on failure the list is kept and the error rethrown |
| UseAlvaras.Normalize | src/hooks/useAlvaras.ts:22-29 | the status becomes the one computed from the permit's own dates and no other field changes |
| UseAlvaras.FreshIsWellFormed | src/hooks/useAlvaras.ts:22-29 | in a freshly normalised list, a permit is pending exactly when it has no issue date |
| UseAlvaras.LoadAlvaras | src/hooks/useAlvaras.ts:16-37 | on success each cached permit is the fetched one at the same position with its status recomputed; on failure the list is kept and "Erro ao carregar alvarás" is the fallback message |
| UseAlvaras.AddAlvara | src/hooks/useAlvaras.ts:39-57 | on success the returned permit, with its status recomputed, is appended and the error cleared; on failure nothing changes but the error; both keep every status consistent with today |
| UseAlvaras.UpdateAlvara | src/hooks/useAlvaras.ts:59-79 | on success the permits with the id are replaced by the recomputed one, the length is kept and the error cleared; on failure nothing changes but the error; status consistency is kept |
| UseAlvaras.DeleteAlvara | src/hooks/useAlvaras.ts:81-91 | on success exactly the permits with the id are removed and the error cleared; on failure nothing changes but the error; status consistency is kept |
| UseAlvaras.StatsOf | src/hooks/useAlvaras.ts:93-101 | the total is the list length; each status count is how many times that status occurs among the list's statuses; the four counts add up to the total |
| UseAlvaras.CountStatusMultiplicity | src/hooks/useAlvaras.ts:96-99 | counting with the status filter gives the multiplicity of the status in the multiset of the list's statuses |
| UseAlvaras.StatusCountsSum | src/hooks/useAlvaras.ts:93-101 | the four status counts of any list add up to its length |
| UseClientes.LoadClientes | src/hooks/useClientes.ts:15-28 | on success the cache is exactly the fetched list; on failure it is kept and the error recorded |
| UseClientes.AddCliente | src/hooks/useClientes.ts:30-41 | on success the returned record is appended at the end and the error cleared; on failure the cache is kept and the error rethrown |
| UseClientes.UpdateCliente | src/hooks/useClientes.ts:43-56 | on success only the records with the id are replaced, the length is kept and the error cleared; on failure the cache is kept and the error rethrown |
| UseClientes.DeleteCliente | src/hooks/useClientes.ts:58-68 | on success exactly the records with the id are removed and the error cleared; on failure the cache is kept and the error rethrown |
| UseClientes.GetClienteById | src/hooks/useClientes.ts:70-72 | the first record with the id, or none iff no record has it |
| UseClientes.AddThenFind | src/hooks/useClientes.ts:30-41 | a record added under a fresh id is then found by that id |
| UseClientes.DeleteThenFind | src/hooks/useClientes.ts:58-72 | after deleting an id, no record is found by it |
| UseAtividades.LoadAtividades | src/hooks/useAtividadesSecundarias.ts:11-26 | an answered load replaces the list; a non-2xx answer or a rejection keeps it and records the error without rethrowing |
| UseAtividades.AddAtividade | src/hooks/useAtividadesSecundarias.ts:28-45 | an answered add appends the returned activity and clears the error; otherwise the list is kept and the error rethrown |
| UseAtividades.DeleteAtividade | src/hooks/useAtividadesSecundarias.ts:47-60 | an answered delete removes exactly the activities with the id (the length drops by their number) and clears the error; otherwise the list is kept and the error rethrown |
| UseAtividades.AddThenDelete | src/hooks/useAtividadesSecundarias.ts:28-60 | deleting, by its id, an activity just added under a fresh id gives back the list as it was before the add |
| UseAtividades.FailuresKeepList | src/hooks/useAtividadesSecundarias.ts:36-59 | a failed add followed by a failed delete leaves the list as it was, with the delete's message recorded |
| UseDocumentos.LoadDocumentos | src/hooks/useDocumentosCliente.ts:11-26 | an answered load replaces the list; otherwise it is kept and the error recorded without rethrowing |
| UseDocumentos.UploadDocumento | src/hooks/useDocumentosCliente.ts:28-44 | an answered upload appends the returned document and clears the error; otherwise the list is kept and the error rethrown |
| UseDocumentos.DeleteDocumento | src/hooks/useDocumentosCliente.ts:46-59 | an answered delete removes exactly the documents with the id (the length drops by their number) and clears the error; otherwise the list is kept and the error rethrown |
| UseDocumentos.UploadThenDelete | src/hooks/useDocumentosCliente.ts:28-59 | deleting, by its id, a document just uploaded under a fresh id gives back the list as it was before the upload |
| UseDocumentos.FailuresKeepList | src/hooks/useDocumentosCliente.ts:35-58 | a failed upload followed by a failed delete leaves the list as it was, with the delete's message recorded |
| AlvarasPage.NovosAlvaras | src/pages/Alvaras.tsx:53-54 | the permits without an issue date, all of them, in list order |
| AlvarasPage.AlvarasEmFuncionamento | src/pages/Alvaras.tsx:56-57 | the permits with an issue date, all of them, in list order |
| AlvarasPage.TabsPartition | src/pages/Alvaras.tsx:53-57 | the two tabs are disjoint and together hold every permit exactly once (multisets and lengths add up) |
| AlvarasPage.StatsNovosOf | src/pages/Alvaras.tsx:60-65 | the total is the size of the first tab and the pending count is the multiplicity of "pending" among that tab's statuses, at most the total |
| AlvarasPage.StatsFuncionamentoOf | src/pages/Alvaras.tsx:68-75 | the total is the size of the second tab and the valid, expiring and expired counts are the multiplicities of those statuses among that tab's statuses; together at most the total |
| AlvarasPage.StatsNovosAllPending | src/pages/Alvaras.tsx:60-65 | in a status-consistent list, every permit of the first tab is pending |
| AlvarasPage.StatsFuncionamentoSum | src/pages/Alvaras.tsx:68-75 | in a status-consistent list, valid, expiring and expired add up to the second tab's total |
| AlvarasPage.FilteredAlvaras | src/pages/Alvaras.tsx:78-95 | the result is an order-preserving subsequence of the tab's list, and an entry of the tab is in it iff it has a client name and type, matches the search and matches the status filter |
| AlvarasPage.FilteredUnrestricted | src/pages/Alvaras.tsx:78-95 | with an empty search and filter "all", the result is every tab entry with a client name and type |
| AlvarasPage.HandleAddAlvara | src/pages/Alvaras.tsx:97-151 | no client or no type: an error notice and no call; otherwise an update when editing and a create when not; success closes the form; a failure keeps it open with the error notice; completing an unissued permit with an issue date switches to the second tab; a create appends the returned permit, status recomputed, and keeps the tab with the "cadastrado" notice; the page's cache is the one the hook's add (create) or update (edit, by the edited id) leaves, on success and on failure |
| AlvarasPage.CompletingMovesPermit | src/pages/Alvaras.tsx:117-134 | editing a permit in opening to carry an issue date, against a gateway that stores what it is sent, puts it in the second tab's list, removes its id from the first and shows the second tab |
| AlvarasPage.HandleFinalize | src/pages/Alvaras.tsx:189-192 | the permit becomes the one being finalized with no date chosen yet, and nothing else changes |
| AlvarasPage.HandleConfirmFinalize | src/pages/Alvaras.tsx:201-225 | without a permit or a date there is no call; otherwise one update whose payload is the permit with issue date today and the chosen expiration date, and nothing else changed; on success the second tab opens with the "finalizado" notice; the page's cache is the one the hook's update by the permit's id leaves |
| AlvarasPage.FinalizeMovesPermit | src/pages/Alvaras.tsx:201-225 | after a successful finalize, the permit is in the second tab with its new dates |
| AlvaraTable.GetDaysText | src/components/AlvaraTable.tsx:30-37 | `-` without a date; `"<n> dias vencido"` for n days overdue; `"Vence hoje"` on the day; `"<n> dias"` for n days remaining |
| AlvaraTable.DaysTextRoundTrip | src/components/AlvaraTable.tsx:30-37 | reading the text back gives the signed day count, or nothing iff there is no date |
| AlvaraTable.OverdueTextIffExpired | src/components/AlvaraTable.tsx:30-37 | an issued permit reads as overdue iff its status is expired |
| ClienteTable.GetAlvaraByTipo | src/components/ClienteTable.tsx:26-30 | the first permit with that client, that type and an issue date; none iff there is no such permit |
| ClienteTable.StatusIcon | src/components/ClienteTable.tsx:42-53 | a pending status has no icon; valid shows the check circle, expiring the clock, expired the crossed circle |
| ClienteTable.AlvaraCell | src/components/ClienteTable.tsx:33-36 | a dash iff there is no permit or no expiration date; otherwise the date with the status icon |
| ClienteTable.OpeningPermitsShowDash | src/components/ClienteTable.tsx:26-36 | a client whose permits of a type are all unissued shows a dash |
| ClienteTable.StatusIconInjective | src/components/ClienteTable.tsx:42-53 | the three dated statuses get pairwise different icons |
| ClienteTable.DatedCellHasIcon | src/components/ClienteTable.tsx:26-53 | in a status-consistent list, a cell showing a date always has an icon |
| ClienteForm.LimparCnpj | src/components/ClienteForm.tsx:164-166 | digits only, idempotent, the input's digits in order, each digit exactly as often as the input has it and nothing else, and an all-digit input unchanged |
| ClienteForm.SubmitPayload | src/components/ClienteForm.tsx:174-177 | the payload is the form data with only the CNPJ cleaned |
| ClienteForm.HandleSubmit | src/components/ClienteForm.tsx:168-186 | submits the cleaned payload; success closes the form; a failure keeps it open with the error message or "Erro ao salvar cliente" |
| ClienteForm.ToggleAlvara | src/components/ClienteForm.tsx:370-376 | checking appends the type at the end; unchecking removes every occurrence and keeps every other entry, duplicates included, in order (as a multiset it is the input with the type's count set to zero) |
| ClienteForm.ToggleRoundTrip | src/components/ClienteForm.tsx:370-376 | checking and then unchecking a type not yet listed restores the list |
| ClienteForm.OnOpen | src/components/ClienteForm.tsx:99-131 | opening clears the error and shows the first tab; with a company it copies all eight fields; without one every field is empty; closing changes nothing |
| ClienteForm.EditUnchangedRoundTrip | src/components/ClienteForm.tsx:99-178 | opening a company and submitting without edits sends its own data back, with the CNPJ cleaned |
| ClienteForm.SelecionarCnae | src/components/ClienteForm.tsx:86-92 | the chosen code and description become the primary activity and nothing else changes |
| ClienteForm.HandleAddAtividade | src/components/ClienteForm.tsx:188-216 | without an edited company, code or description: the error "Preencha código e descrição da atividade" and no request; otherwise one request, which clears the inputs on success; on failure only the error changes: "Erro ao adicionar atividade" for a non-2xx answer, the rejection's message (the same text if it is not an `Error`) for a rejection |
| ClienteForm.HandleAddDocumento | src/components/ClienteForm.tsx:218-251 | without an edited company, name or file: the error "Preencha o nome e selecione um arquivo" and no request; otherwise one request, which clears the inputs on success; on failure only the error changes: "Erro ao fazer upload" for a non-2xx answer, the rejection's message (the same text if it is not an `Error`) for a rejection |
| ClientesPage.FilteredClientes | src/pages/Clientes.tsx:21-32 | an order-preserving subsequence, and a company is in it iff its name, trade name, e-mail or city contains the lowered term, or its CNPJ contains the raw term |
| ClientesPage.EmptySearchListsAll | src/pages/Clientes.tsx:21-32 | an empty term lists every company |
| ClientesPage.HandleAddCliente | src/pages/Clientes.tsx:34-58 | an update when editing and a create otherwise; success closes the form with the "atualizado" or "cadastrado" notice; the page's cache is the one the hook's add or update leaves, so a successful create appends the returned company; a failure becomes an error notice and is not passed on (as written) |
| ClientesPage.HandleAddClienteRethrowing | src/pages/Clientes.tsx:34-58 | the same dispatch, the same notices and the same cache, but a failure is passed on to the caller (corrected) |
| ClientesPage.FailedSaveClosesForm | src/pages/Clientes.tsx:51-57 | as written, a failed save closes the company form without showing its error |
| ClientesPage.FailedSaveKeepsFormOpen | src/components/ClienteForm.tsx:178-182 | corrected, a failed save keeps the form open and shows the error in it |
| ClientesPage.SuccessfulSaveCloses | src/pages/Clientes.tsx:34-50 | on success both versions agree and the form closes |
| CnpjApi.FetchCnpjData | src/lib/cnpj-api.ts:41-82 | a value without 14 digits is refused before any request; otherwise the cleaned value is requested; 429 gives the rate-limit error and 504 the timeout; any other non-2xx answer gives the body's non-empty message or "Erro ao buscar CNPJ"; a 2xx record with a status other than OK is "not found", and a 2xx record with status OK is the result (and only such a record is); a rejected fetch or an unreadable 2xx body passes its `Error` message on, prefixed; every escaping `Error` carries the prefix "Erro ao buscar CNPJ: "; a thrown non-Error passes unchanged |
| CnpjApi.ConvertCnpjDataToFormData | src/lib/cnpj-api.ts:87-97 | the CNPJ is copied; the name, trade name, state and city are copied, each becoming empty when missing; the primary activity code and description come from the first list entry, each empty when missing, or both empty when there is no entry |
| CnpjApi.ConvertRecordOf | src/lib/cnpj-api.ts:87-97 | converting a complete record gives back the fields it was built from |
| CnpjApi.LookupThenConvert | src/lib/cnpj-api.ts:41-97 | a successful lookup of a complete record fills the form with that record's fields |
| CnaeSelect.Search | src/components/CnaeSelect.tsx:34-52 | an empty query shows the first `min(50, n)` entries; otherwise the first at most 100 matches in order, every one with both parts non-empty and containing the lowered query, and all matches when fewer than 100 |
| CnaeSelect.HandleSearch | src/components/CnaeSelect.tsx:34-52 | keeps the query; the list shown is exactly the search result (a subsequence of the catalogue, at most 100 long for a non-empty query); nothing else changes |
| CnaeSelect.HandleOpenChange | src/components/CnaeSelect.tsx:54-61 | opening clears the query and shows the first entries; closing changes nothing else |
| CnaeSelect.HandleSelect | src/components/CnaeSelect.tsx:63-67 | reports the pick, closes and clears the query |
| CnaeSelect.HandleClear | src/components/CnaeSelect.tsx:69-72 | reports the empty pair and clears the query |
| CnaeSelect.OpenThenSearch | src/components/CnaeSelect.tsx:34-61 | after opening, a search with fewer than 100 matches shows every match |
| CnaeSelect.ClearEmptiesPrimaryActivity | src/components/CnaeSelect.tsx:69-72 | clearing empties the form's primary activity and leaves the rest of the form alone |

## Left out

- Wall-clock time: `new Date()` is the `today` parameter, and dates are whole days. The one-day boundary shift that the time of day causes in `isBefore` (a permit expiring today counts as expired at any time after midnight) and in `differenceInDays` is not modelled, and neither are time zones or daylight saving.
- Date parsing: `new Date(...)` of an unparsable value is not modelled. Every date is either a day number or absent.
- Lowercasing: `toLowerCase` is ASCII-only. Locale-dependent and non-ASCII case mapping is not modelled.
- HTTP: URLs, headers, request bodies, `FormData` construction and JSON decoding are not modelled. Each remote call is represented by its outcome.
- `isLoading` flags, toasts, focus handling and all rendering are not modelled. Toasts become `Notice` values.
- The company form keeps its own copy of the company's activities and documents, separate from the hooks' caches. Its own `loadAtividades` and `loadDocumentos` fill that copy. They run on every open with a company and after each add or delete. A non-2xx answer is silently ignored there and a rejection is only logged, whereas the hooks record `error`. These loaders, and so the contents of the form's lists after an open or a reload, are not modelled. Only the emptying on an open without a company is modelled.
- The form's `deleteAtividade` and `deleteDocumento` are not modelled. They act only on that unmodelled copy. `downloadDocumento` is not modelled either, because it only navigates the browser.
- `handleSelecionarAtividade` only copies two strings into the inputs, so it is not modelled separately.
- The pages' edit, delete-confirmation and renew handlers (`handleEdit`, `handleDelete`, `handleConfirmDelete`, `handleRenew`, `handleOpenForm`) are left out. They only set dialog state or call the modelled cache delete.
- `generateId` is left out because it uses randomness and the clock.
- The permit form component, authentication, login, registration, administration and password validation are left out. None of them is part of the permit register's rules.
- Renewal mode, processing status and notes history are left out. They have no logic in the modelled files.
- The `CNAE_LIST` catalogue is data from a file that is not part of this model. It is a parameter.
- `ALVARA_TYPES` is also not part of this model. Permit types are plain strings.
- Registry record fields that the application never reads are omitted from `CnpjApi.CnpjData`.
- AlvaraTable.OverdueTextIffExpired: holds on whole days only. In the program, with a clock past midnight, a permit due today is already `expired` by the `isBefore` test, while `differenceInDays` gives 0 and the table shows "Vence hoje". A permit due tomorrow can also show "Vence hoje". So the badge and the text disagree on the due day, and the model does not capture that.
- CnpjApi.FetchCnpjData: the registry proxy's `message` is taken to be a string or absent. A non-string `message` is not modelled.
- ClienteTable.StatusIcon: the icons are named values. Their colours and shapes are not modelled.

## Findings

| source | as written | input that shows it | evidently intended | confidence | as-written member | corrected member |
|---|---|---|---|---|---|---|
| src/lib/alvara-utils.ts:41 | the label of `valid` is `VÃ¡lido`, the UTF-8 bytes of "á" shown as two Latin-1 characters | `getStatusLabel('valid')` | `Válido` | high, not executed | AlvaraUtils.StatusLabelMisencoded | AlvaraUtils.StatusLabel |
| src/pages/Clientes.tsx:51-57 | `handleAddCliente` catches every failure and shows a toast, so the form's `await onSubmit(...)` always resolves and the form closes; the form's own error path is dead | any company save whose gateway call throws | the failure reaches the form, which stays open and shows the message (as the form's own handler is written to do) | medium, not executed | ClientesPage.FailedSaveClosesForm | ClientesPage.FailedSaveKeepsFormOpen |
