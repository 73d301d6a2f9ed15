/** The company page: the search filter, the add-or-update dispatch, and
    the submit flow through the company form. */
module ClientesPage {
  import opened Wrappers
  import opened Types
  import opened Gateway
  import Seqs
  import Text
  import Cache
  import UseClientes
  import ClienteForm

  datatype Notice = ClienteAtualizado | ClienteCadastrado | ClienteRemovido | Erro(description: string)

  datatype Call = CreateCall(data: ClienteFormData) | UpdateCall(id: string, data: ClienteFormData)

  datatype Page = Page(cache: Cache.State<Cliente>, formOpen: bool, editing: Option<Cliente>, notice: Option<Notice>)

  /** The term matches a text field case-insensitively, or the CNPJ verbatim. */
  predicate MatchesTerm(c: Cliente, term: string) {
    var t := Text.ToLower(term);
    || Text.Includes(Text.ToLower(c.razaoSocial), t)
    || Text.Includes(Text.ToLower(c.nomeFantasia), t)
    || Text.Includes(c.cnpj, term)
    || Text.Includes(Text.ToLower(c.email), t)
    || Text.Includes(Text.ToLower(c.municipio), t)
  }

  /** `filteredClientes`: the companies the term matches, in list order. */
  function FilteredClientes(xs: seq<Cliente>, term: string): (r: seq<Cliente>)
    ensures Seqs.IsSubseq(r, xs)
    ensures forall i :: 0 <= i < |r| ==> MatchesTerm(r[i], term)
    ensures forall i :: 0 <= i < |xs| && MatchesTerm(xs[i], term) ==> xs[i] in r
  {
    Seqs.FilterIsSubseq(xs, c => MatchesTerm(c, term));
    Seqs.Filter(xs, c => MatchesTerm(c, term))
  }

  /** An empty search lists every company. */
  lemma EmptySearchListsAll(xs: seq<Cliente>)
    ensures FilteredClientes(xs, "") == xs
  {
    forall i | 0 <= i < |xs|
      ensures MatchesTerm(xs[i], "")
    {
      Text.IncludesEmpty(Text.ToLower(xs[i].razaoSocial));
    }
    Seqs.FilterAll(xs, c => MatchesTerm(c, ""));
  }

  /** `handleAddCliente` as written: update when editing, add otherwise. A
      failure shows a toast and is swallowed, so the returned promise always
      resolves (`Ok`). */
  function HandleAddCliente(p: Page, data: ClienteFormData, reply: Reply<Cliente>): (r: (Page, Call, Reply<()>))
    ensures r.1 == (if p.editing.Some? then UpdateCall(p.editing.value.id, data) else CreateCall(data))
    ensures r.2 == Ok(())
    ensures reply.Ok? ==> !r.0.formOpen && r.0.editing.None?
    ensures reply.Threw? ==>
              && r.0.formOpen == p.formOpen && r.0.editing == p.editing
              && r.0.cache.items == p.cache.items
              && r.0.notice == Some(Erro(Message(reply.thrown, "Erro ao salvar cliente")))
    ensures r.1.CreateCall? ==> r.0.cache == UseClientes.AddCliente(p.cache, reply).state
    ensures r.1.CreateCall? && reply.Ok? ==> r.0.cache.items == p.cache.items + [reply.value]
    ensures r.1.UpdateCall? ==> r.0.cache == UseClientes.UpdateCliente(p.cache, r.1.id, reply).state
    ensures reply.Ok? ==> r.0.notice == Some(if p.editing.Some? then ClienteAtualizado else ClienteCadastrado)
  {
    var (p', call) := Dispatch(p, data, reply);
    (p', call, Ok(()))
  }

  /** The add-or-update step both versions share. */
  function Dispatch(p: Page, data: ClienteFormData, reply: Reply<Cliente>): (Page, Call) {
    match p.editing
    case Some(e) =>
      var step := UseClientes.UpdateCliente(p.cache, e.id, reply);
      var call := UpdateCall(e.id, data);
      if step.settled.Rethrown? then
        (p.(cache := step.state, notice := Some(Erro(Message(step.settled.thrown, "Erro ao salvar cliente")))), call)
      else
        (p.(cache := step.state, notice := Some(ClienteAtualizado), formOpen := false, editing := None), call)
    case None =>
      var step := UseClientes.AddCliente(p.cache, reply);
      var call := CreateCall(data);
      if step.settled.Rethrown? then
        (p.(cache := step.state, notice := Some(Erro(Message(step.settled.thrown, "Erro ao salvar cliente")))), call)
      else
        (p.(cache := step.state, notice := Some(ClienteCadastrado), formOpen := false, editing := None), call)
  }

  /** `handleAddCliente` as evidently intended: after the toast the failure
      is rethrown, so the form's own error handling can run. */
  function HandleAddClienteRethrowing(p: Page, data: ClienteFormData, reply: Reply<Cliente>)
    : (r: (Page, Call, Reply<()>))
    ensures r.1 == (if p.editing.Some? then UpdateCall(p.editing.value.id, data) else CreateCall(data))
    ensures reply.Ok? ==> r.2 == Ok(()) && !r.0.formOpen && r.0.editing.None?
    ensures reply.Threw? ==>
              && r.2 == Threw(reply.thrown)
              && r.0.formOpen == p.formOpen && r.0.editing == p.editing
              && r.0.cache.items == p.cache.items
    ensures r.1.CreateCall? ==> r.0.cache == UseClientes.AddCliente(p.cache, reply).state
    ensures r.1.CreateCall? && reply.Ok? ==> r.0.cache.items == p.cache.items + [reply.value]
    ensures r.1.UpdateCall? ==> r.0.cache == UseClientes.UpdateCliente(p.cache, r.1.id, reply).state
    ensures reply.Ok? ==> r.0.notice == Some(if p.editing.Some? then ClienteAtualizado else ClienteCadastrado)
    ensures reply.Threw? ==> r.0.notice == Some(Erro(Message(reply.thrown, "Erro ao salvar cliente")))
  {
    var (p', call) := Dispatch(p, data, reply);
    (p', call, if reply.Ok? then Ok(()) else Threw(reply.thrown))
  }

  /** Submitting the form as the source wires it: the form hands its cleaned
      payload to `handleAddCliente` and, when that resolves, closes the dialog
      (`onOpenChange(false)`, which is `setIsFormOpen(false)`). */
  function SubmitAsWritten(p: Page, f: ClienteForm.Form, reply: Reply<Cliente>): (Page, ClienteForm.Form)
  {
    var (p', _, settled) := HandleAddCliente(p, ClienteForm.SubmitPayload(f.data), reply);
    var (_, f', close) := ClienteForm.HandleSubmit(f, settled);
    (if close then p'.(formOpen := false) else p', f')
  }

  /** The same flow with the rethrowing handler. */
  function SubmitCorrected(p: Page, f: ClienteForm.Form, reply: Reply<Cliente>): (Page, ClienteForm.Form)
  {
    var (p', _, settled) := HandleAddClienteRethrowing(p, ClienteForm.SubmitPayload(f.data), reply);
    var (_, f', close) := ClienteForm.HandleSubmit(f, settled);
    (if close then p'.(formOpen := false) else p', f')
  }

  /** As written, a failed save closes the open form and its error banner
      stays empty: the data entered is gone from view. */
  lemma FailedSaveClosesForm(p: Page, f: ClienteForm.Form, t: Thrown)
    requires p.formOpen && f.error.None?
    ensures !SubmitAsWritten(p, f, Threw(t)).0.formOpen
    ensures SubmitAsWritten(p, f, Threw(t)).1.error.None?
  {
  }

  /** With the failure rethrown, a failed save keeps the form open, with the
      entered data, and shows the message in the form. */
  lemma FailedSaveKeepsFormOpen(p: Page, f: ClienteForm.Form, t: Thrown)
    requires p.formOpen
    ensures var (p', f') := SubmitCorrected(p, f, Threw(t));
            && p'.formOpen
            && f'.data == f.data
            && f'.error == Some(Message(t, "Erro ao salvar cliente"))
  {
  }

  /** Both versions agree on a successful save: the form closes. */
  lemma SuccessfulSaveCloses(p: Page, f: ClienteForm.Form, c: Cliente)
    ensures SubmitAsWritten(p, f, Ok(c)) == SubmitCorrected(p, f, Ok(c))
    ensures !SubmitCorrected(p, f, Ok(c)).0.formOpen
  {
  }
}
