/** The company form: CNPJ cleaning on submit, the permit-type checkboxes,
    the guards on adding an activity or a document, and the reset on open. */
module ClienteForm {
  import opened Wrappers
  import opened Types
  import opened Gateway
  import Seqs
  import Text

  datatype FormTab = Dados | Atividades | Documentos

  /** A chosen file, by name and size; its bytes are not modelled. */
  datatype FileRef = FileRef(name: string, size: nat)

  /** The form's state: the eight company fields, the error banner, the
      active tab, and the inputs of the activity and document tabs. */
  datatype Form = Form(
    data: ClienteFormData,
    error: Option<string>,
    tab: FormTab,
    novaAtividadeCodigo: string,
    novaAtividadeDescricao: string,
    nomeDocumento: string,
    tipoDocumento: string,
    arquivo: Option<FileRef>,
    atividades: seq<AtividadeSecundaria>,
    documentos: seq<DocumentoCliente>)

  /** The request an action sends, if any. */
  datatype Request =
    | NoRequest
    | PostAtividade(clienteId: string, codigo: string, descricao: string)
    | PostDocumento(clienteId: string, nomeDocumento: string, tipoDocumento: Option<string>, file: FileRef)

  datatype Action = Action(form: Form, request: Request)

  const EmptyData: ClienteFormData := ClienteFormData("", "", "", "", "", "", "", [])

  /** The company's eight form fields. */
  function DataOf(c: Cliente): ClienteFormData {
    ClienteFormData(c.cnpj, c.razaoSocial, c.nomeFantasia, c.uf, c.municipio,
                    c.atividadePrincipalCodigo, c.atividadePrincipalDescricao, c.alvaras)
  }

  /** `limparCNPJ`: only digits remain, in their order, and cleaning a clean value changes nothing. */
  function LimparCnpj(s: string): (r: string)
    ensures Text.AllDigits(r)
    ensures Text.Digits(r) == r
    ensures Seqs.IsSubseq(r, s)
    ensures forall c :: multiset(r)[c] == if Text.IsDigit(c) then multiset(s)[c] else 0
    ensures Text.AllDigits(s) ==> r == s
  {
    Text.DigitsIsSubseq(s);
    Text.DigitsMultiset(s);
    Text.Digits(s)
  }

  /** The payload `handleSubmit` sends: the form data with the CNPJ cleaned. */
  function SubmitPayload(data: ClienteFormData): (r: ClienteFormData)
    ensures r.cnpj == LimparCnpj(data.cnpj)
    ensures r.(cnpj := data.cnpj) == data
  {
    data.(cnpj := LimparCnpj(data.cnpj))
  }

  /** `handleSubmit`, given how the page's `onSubmit` promise settled: close
      when it resolves, show its message when it rejects. */
  function HandleSubmit(f: Form, settled: Reply<()>): (r: (ClienteFormData, Form, bool))
    ensures r.0 == SubmitPayload(f.data)
    ensures settled.Ok? ==> r.2 && r.1 == f.(error := None)
    ensures settled.Threw? ==> !r.2 && r.1 == f.(error := Some(Message(settled.thrown, "Erro ao salvar cliente")))
  {
    var payload := SubmitPayload(f.data);
    match settled
    case Ok(_) => (payload, f.(error := None), true)
    case Threw(t) => (payload, f.(error := Some(Message(t, "Erro ao salvar cliente"))), false)
  }

  /** The permit-type checkbox: checking appends the type, unchecking drops every occurrence. */
  function ToggleAlvara(alvaras: seq<string>, tipo: string, checked: bool): (r: seq<string>)
    ensures checked ==> r == alvaras + [tipo]
    ensures !checked ==>
              && (forall i :: 0 <= i < |r| ==> r[i] != tipo)
              && (forall i :: 0 <= i < |alvaras| && alvaras[i] != tipo ==> alvaras[i] in r)
              && Seqs.IsSubseq(r, alvaras)
              && multiset(r) == multiset(alvaras)[tipo := 0]
  {
    if checked then alvaras + [tipo]
    else
      Seqs.FilterIsSubseq(alvaras, t => t != tipo);
      Seqs.FilterMultiset(alvaras, t => t != tipo);
      Seqs.Filter(alvaras, t => t != tipo)
  }

  /** Checking a type the company did not have and unchecking it again restores the list. */
  lemma ToggleRoundTrip(alvaras: seq<string>, tipo: string)
    requires tipo !in alvaras
    ensures ToggleAlvara(ToggleAlvara(alvaras, tipo, true), tipo, false) == alvaras
  {
    Seqs.FilterAppend(alvaras, [tipo], t => t != tipo);
    Seqs.FilterAll(alvaras, t => t != tipo);
  }

  /** The form-opening effect: with a company, copy its eight fields; without
      one, empty every field and both lists. Closing changes nothing. */
  function OnOpen(f: Form, open: bool, editing: Option<Cliente>): (r: Form)
    ensures !open ==> r == f
    ensures open ==> r.error.None? && r.tab == Dados
    ensures open && editing.Some? ==>
              && r.data.cnpj == editing.value.cnpj
              && r.data.razaoSocial == editing.value.razaoSocial
              && r.data.nomeFantasia == editing.value.nomeFantasia
              && r.data.uf == editing.value.uf
              && r.data.municipio == editing.value.municipio
              && r.data.atividadePrincipalCodigo == editing.value.atividadePrincipalCodigo
              && r.data.atividadePrincipalDescricao == editing.value.atividadePrincipalDescricao
              && r.data.alvaras == editing.value.alvaras
    ensures open && editing.None? ==>
              && r.data.cnpj == "" && r.data.razaoSocial == "" && r.data.nomeFantasia == ""
              && r.data.uf == "" && r.data.municipio == ""
              && r.data.atividadePrincipalCodigo == "" && r.data.atividadePrincipalDescricao == ""
              && r.data.alvaras == [] && r.atividades == [] && r.documentos == []
  {
    if !open then f
    else match editing
      case Some(c) => f.(error := None, tab := Dados, data := DataOf(c))
      case None => f.(error := None, tab := Dados, data := EmptyData, atividades := [], documentos := [])
  }

  /** Opening a company and submitting without edits sends its own fields
      back, with only the CNPJ cleaned. */
  lemma EditUnchangedRoundTrip(f: Form, c: Cliente)
    ensures SubmitPayload(OnOpen(f, true, Some(c)).data) == DataOf(c).(cnpj := LimparCnpj(c.cnpj))
    ensures Text.AllDigits(c.cnpj) ==> SubmitPayload(OnOpen(f, true, Some(c)).data) == DataOf(c)
  {
  }

  /** `handleSelecionarCnae`: the chosen activity becomes the primary one. */
  function SelecionarCnae(f: Form, codigo: string, descricao: string): (r: Form)
    ensures r.data.atividadePrincipalCodigo == codigo && r.data.atividadePrincipalDescricao == descricao
    ensures r.data.(atividadePrincipalCodigo := f.data.atividadePrincipalCodigo,
                    atividadePrincipalDescricao := f.data.atividadePrincipalDescricao) == f.data
    ensures r.(data := f.data) == f
  {
    f.(data := f.data.(atividadePrincipalCodigo := codigo, atividadePrincipalDescricao := descricao))
  }

  /** `handleAddAtividade`: needs a company being edited and both fields;
      otherwise it shows an error and sends nothing. On success the inputs clear. */
  function HandleAddAtividade(f: Form, editing: Option<Cliente>, h: Http<()>): (r: Action)
    ensures editing.None? || f.novaAtividadeCodigo == "" || f.novaAtividadeDescricao == "" ==>
              r.request == NoRequest && r.form == f.(error := Some("Preencha código e descrição da atividade"))
    ensures editing.Some? && f.novaAtividadeCodigo != "" && f.novaAtividadeDescricao != "" ==>
              r.request == PostAtividade(editing.value.id, f.novaAtividadeCodigo, f.novaAtividadeDescricao)
    ensures r.request != NoRequest && h.Answered? ==>
              r.form == f.(error := None, novaAtividadeCodigo := "", novaAtividadeDescricao := "")
    ensures r.request != NoRequest && !h.Answered? ==>
              r.form.(error := f.error) == f && r.form.error.Some?
    ensures r.request != NoRequest && h.NotOk? ==> r.form.error == Some("Erro ao adicionar atividade")
    ensures r.request != NoRequest && h.Rejected? ==> r.form.error == Some(Message(h.thrown, "Erro ao adicionar atividade"))
  {
    if editing.None? || f.novaAtividadeCodigo == "" || f.novaAtividadeDescricao == "" then
      Action(f.(error := Some("Preencha código e descrição da atividade")), NoRequest)
    else
      var req := PostAtividade(editing.value.id, f.novaAtividadeCodigo, f.novaAtividadeDescricao);
      match Checked(h, "Erro ao adicionar atividade")
      case Ok(_) => Action(f.(error := None, novaAtividadeCodigo := "", novaAtividadeDescricao := ""), req)
      case Threw(t) => Action(f.(error := Some(Message(t, "Erro ao adicionar atividade"))), req)
  }

  /** `handleAddDocumento`: needs a company being edited, a name and a file;
      otherwise it shows an error and sends nothing. The type goes along
      only when filled in. On success the inputs clear. */
  function HandleAddDocumento(f: Form, editing: Option<Cliente>, h: Http<()>): (r: Action)
    ensures editing.None? || f.nomeDocumento == "" || f.arquivo.None? ==>
              r.request == NoRequest && r.form == f.(error := Some("Preencha o nome e selecione um arquivo"))
    ensures editing.Some? && f.nomeDocumento != "" && f.arquivo.Some? ==>
              && r.request.PostDocumento?
              && r.request == PostDocumento(editing.value.id, f.nomeDocumento, r.request.tipoDocumento, f.arquivo.value)
              && (r.request.tipoDocumento.Some? <==> f.tipoDocumento != "")
              && (r.request.tipoDocumento.Some? ==> r.request.tipoDocumento.value == f.tipoDocumento)
    ensures r.request != NoRequest && h.Answered? ==>
              r.form == f.(error := None, nomeDocumento := "", tipoDocumento := "", arquivo := None)
    ensures r.request != NoRequest && !h.Answered? ==>
              r.form.(error := f.error) == f && r.form.error.Some?
    ensures r.request != NoRequest && h.NotOk? ==> r.form.error == Some("Erro ao fazer upload")
    ensures r.request != NoRequest && h.Rejected? ==> r.form.error == Some(Message(h.thrown, "Erro ao fazer upload"))
  {
    if editing.None? || f.nomeDocumento == "" || f.arquivo.None? then
      Action(f.(error := Some("Preencha o nome e selecione um arquivo")), NoRequest)
    else
      var tipo := if f.tipoDocumento != "" then Some(f.tipoDocumento) else None;
      var req := PostDocumento(editing.value.id, f.nomeDocumento, tipo, f.arquivo.value);
      match Checked(h, "Erro ao fazer upload")
      case Ok(_) => Action(f.(error := None, nomeDocumento := "", tipoDocumento := "", arquivo := None), req)
      case Threw(t) => Action(f.(error := Some(Message(t, "Erro ao fazer upload"))), req)
  }
}
