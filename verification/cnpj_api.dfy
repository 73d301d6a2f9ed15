/** The national-registry lookup through the backend proxy, and the
    conversion of a registry record into company-form fields. */
module CnpjApi {
  import opened Wrappers
  import opened Gateway
  import Text

  /** One activity entry of a registry record; either part may be missing. */
  datatype Activity = Activity(code: Option<string>, text: Option<string>)

  /** The fields of a registry record the application reads. */
  datatype CnpjData = CnpjData(
    status: Option<string>,
    cnpj: string,
    nome: Option<string>,
    fantasia: Option<string>,
    uf: Option<string>,
    municipio: Option<string>,
    atividadePrincipal: Option<seq<Activity>>)

  /** A response body: parsed JSON (a record, and the `message` an error body
      may carry), or a body that could not be read. */
  datatype Body = Json(data: CnpjData, message: Option<string>) | Unreadable(thrown: Thrown)

  /** What `fetch` produced: a rejection, or a status code with a body. */
  datatype Response = NetworkFailure(thrown: Thrown) | Responded(status: int, body: Body)

  datatype Outcome = Found(data: CnpjData) | Failed(thrown: Thrown)

  /** The CNPJ actually requested (`None` when no request was made) and the outcome. */
  datatype Lookup = Lookup(requested: Option<string>, outcome: Outcome)

  const Prefix: string := "Erro ao buscar CNPJ: "
  const WrongLength: string := "CNPJ deve ter 14 dígitos"
  const RateLimited: string := "Limite de requisições excedido (3 por minuto). Tente novamente em alguns segundos."
  const TimedOut: string := "Timeout - CNPJ não encontrado ou não disponível no momento"
  const GenericFailure: string := "Erro ao buscar CNPJ"
  const NotFound: string := "CNPJ não encontrado ou inativo"

  /** `response.ok`. */
  predicate IsOk(status: int) {
    200 <= status <= 299
  }

  /** `error.message || 'Erro ao buscar CNPJ'` for a non-2xx answer: the
      body's message when it has a non-empty one. An unreadable body counts
      as `{}`. */
  function ServerMessage(body: Body): (r: string)
    ensures r != ""
    ensures body.Json? && body.message.Some? && body.message.value != "" ==> r == body.message.value
    ensures !(body.Json? && body.message.Some? && body.message.value != "") ==> r == GenericFailure
  {
    if body.Json? && body.message.Some? && body.message.value != "" then body.message.value
    else GenericFailure
  }

  /** The request part of `fetchCNPJData`, before the outer handler. */
  function Respond(response: Response): Outcome {
    match response
    case NetworkFailure(t) => Failed(t)
    case Responded(status, body) =>
      if status == 429 then Failed(Error(RateLimited))
      else if status == 504 then Failed(Error(TimedOut))
      else if !IsOk(status) then
        Failed(Error(ServerMessage(body)))
      else match body
        case Unreadable(t) => Failed(t)
        case Json(d, _) => if d.status != Some("OK") then Failed(Error(NotFound)) else Found(d)
  }

  /** The outer handler: every `Error` is re-thrown with the prefix; anything else passes unchanged. */
  function Prefixed(o: Outcome): Outcome {
    match o
    case Failed(Error(m)) => Failed(Error(Prefix + m))
    case _ => o
  }

  /** `fetchCNPJData`. */
  function FetchCnpjData(cnpj: string, response: Response): (r: Lookup)
    ensures |Text.Digits(cnpj)| != 14 ==>
              r.requested.None? && r.outcome == Failed(Error(Prefix + WrongLength))
    ensures |Text.Digits(cnpj)| == 14 ==> r.requested == Some(Text.Digits(cnpj))
    ensures r.requested.Some? && response.Responded? && response.status == 429 ==>
              r.outcome == Failed(Error(Prefix + RateLimited))
    ensures r.requested.Some? && response.Responded? && response.status == 504 ==>
              r.outcome == Failed(Error(Prefix + TimedOut))
    ensures r.outcome.Found? ==>
              && r.requested.Some? && response.Responded? && IsOk(response.status)
              && response.body.Json? && r.outcome.data == response.body.data
              && r.outcome.data.status == Some("OK")
    ensures r.requested.Some? && response.Responded? && IsOk(response.status) && response.body.Json?
            && response.body.data.status != Some("OK") ==>
              r.outcome == Failed(Error(Prefix + NotFound))
    ensures r.requested.Some? && response.Responded? && IsOk(response.status) && response.body.Json?
            && response.body.data.status == Some("OK") ==>
              r.outcome == Found(response.body.data)
    ensures r.requested.Some? && response.Responded? && !IsOk(response.status)
            && response.status != 429 && response.status != 504 ==>
              r.outcome == Failed(Error(Prefix + ServerMessage(response.body)))
    ensures r.requested.Some? && response.NetworkFailure? && response.thrown.Error? ==>
              r.outcome == Failed(Error(Prefix + response.thrown.message))
    ensures r.requested.Some? && response.Responded? && IsOk(response.status)
            && response.body.Unreadable? && response.body.thrown.Error? ==>
              r.outcome == Failed(Error(Prefix + response.body.thrown.message))
    ensures r.outcome.Failed? && r.outcome.thrown.Error? ==> Prefix <= r.outcome.thrown.message
    ensures r.outcome == Failed(NonError) ==>
              response == NetworkFailure(NonError) || (response.Responded? && response.body == Unreadable(NonError))
  {
    var clean := Text.Digits(cnpj);
    if |clean| != 14 then Lookup(None, Prefixed(Failed(Error(WrongLength))))
    else Lookup(Some(clean), Prefixed(Respond(response)))
  }

  /** The company-form fields a registry record fills in. */
  datatype CnpjFormFields = CnpjFormFields(
    cnpj: string,
    razaoSocial: string,
    nomeFantasia: string,
    uf: string,
    municipio: string,
    atividadePrincipalCodigo: string,
    atividadePrincipalDescricao: string)

  /** `atividade_principal?.[0]`. */
  function FirstActivity(d: CnpjData): Option<Activity> {
    if d.atividadePrincipal.Some? && |d.atividadePrincipal.value| > 0 then Some(d.atividadePrincipal.value[0])
    else None
  }

  /** `convertCNPJDataToFormData`: missing text becomes `''`; the primary
      activity is the first list entry's, or `''`. */
  function ConvertCnpjDataToFormData(d: CnpjData): (r: CnpjFormFields)
    ensures r.cnpj == d.cnpj
    ensures d.nome.None? ==> r.razaoSocial == ""
    ensures d.nome.Some? ==> r.razaoSocial == d.nome.value
    ensures d.fantasia.None? ==> r.nomeFantasia == ""
    ensures d.fantasia.Some? ==> r.nomeFantasia == d.fantasia.value
    ensures d.uf.None? ==> r.uf == ""
    ensures d.uf.Some? ==> r.uf == d.uf.value
    ensures d.municipio.None? ==> r.municipio == ""
    ensures d.municipio.Some? ==> r.municipio == d.municipio.value
    ensures FirstActivity(d).None? ==> r.atividadePrincipalCodigo == "" && r.atividadePrincipalDescricao == ""
    ensures FirstActivity(d).Some? ==>
              r.atividadePrincipalCodigo == FirstActivity(d).value.code.GetOr("")
              && r.atividadePrincipalDescricao == FirstActivity(d).value.text.GetOr("")
  {
    var first := FirstActivity(d);
    CnpjFormFields(
      d.cnpj,
      d.nome.GetOr(""),
      d.fantasia.GetOr(""),
      d.uf.GetOr(""),
      d.municipio.GetOr(""),
      if first.Some? then first.value.code.GetOr("") else "",
      if first.Some? then first.value.text.GetOr("") else "")
  }

  /** A complete registry record carrying the given fields, its primary
      activity first in a list of others. */
  function RecordOf(f: CnpjFormFields, others: seq<Activity>): CnpjData {
    CnpjData(Some("OK"), f.cnpj, Some(f.razaoSocial), Some(f.nomeFantasia), Some(f.uf), Some(f.municipio),
             Some([Activity(Some(f.atividadePrincipalCodigo), Some(f.atividadePrincipalDescricao))] + others))
  }

  /** Conversion loses nothing of a complete record: it gives back the fields
      the record was built from, whatever secondary entries follow. */
  lemma ConvertRecordOf(f: CnpjFormFields, others: seq<Activity>)
    ensures ConvertCnpjDataToFormData(RecordOf(f, others)) == f
  {
  }

  /** A successful lookup of a complete record fills the form with its fields. */
  lemma LookupThenConvert(cnpj: string, f: CnpjFormFields, status: int)
    requires |Text.Digits(cnpj)| == 14 && IsOk(status) && status != 429 && status != 504
    ensures var r := FetchCnpjData(cnpj, Responded(status, Json(RecordOf(f, []), None)));
            r.outcome.Found? && ConvertCnpjDataToFormData(r.outcome.data) == f
  {
  }
}
