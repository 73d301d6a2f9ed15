/** The records of the permit register. Dates are day numbers; an absent
    date is `None`. */
module Types {
  import opened Wrappers

  /** A calendar day, counted in whole days. */
  type Day = int

  /** The lifecycle status derived from a permit's dates. */
  datatype Status = Pending | Valid | Expiring | Expired

  /** A permit (alvará). `tipo` is the record's `type` field. `clienteId`
      names the owning company; `clientName` and `clientCnpj` are the older
      free-text owner fields the permit page still filters on. `status` is
      derived, never authoritative. */
  datatype Alvara = Alvara(
    id: string,
    clienteId: string,
    clientName: string,
    clientCnpj: string,
    tipo: string,
    requestDate: Day,
    issueDate: Option<Day>,
    expirationDate: Option<Day>,
    status: Status,
    notes: Option<string>)

  /** What the permit form submits. */
  datatype AlvaraFormData = AlvaraFormData(
    clienteId: string,
    clientName: string,
    clientCnpj: string,
    tipo: string,
    requestDate: Day,
    issueDate: Option<Day>,
    expirationDate: Option<Day>,
    notes: Option<string>)

  /** The submittable fields of a permit record. */
  function FormOf(a: Alvara): AlvaraFormData {
    AlvaraFormData(a.clienteId, a.clientName, a.clientCnpj, a.tipo,
                   a.requestDate, a.issueDate, a.expirationDate, a.notes)
  }

  /** A company (cliente). `alvaras` lists the permit types it may request. */
  datatype Cliente = Cliente(
    id: string,
    cnpj: string,
    razaoSocial: string,
    nomeFantasia: string,
    uf: string,
    municipio: string,
    atividadePrincipalCodigo: string,
    atividadePrincipalDescricao: string,
    alvaras: seq<string>,
    email: string)

  /** The eight fields of the company form. */
  datatype ClienteFormData = ClienteFormData(
    cnpj: string,
    razaoSocial: string,
    nomeFantasia: string,
    uf: string,
    municipio: string,
    atividadePrincipalCodigo: string,
    atividadePrincipalDescricao: string,
    alvaras: seq<string>)

  /** A secondary business activity of a company. */
  datatype AtividadeSecundaria = AtividadeSecundaria(
    id: string,
    clienteId: string,
    codigo: string,
    descricao: string,
    criadoEm: Day,
    atualizadoEm: Day)

  datatype Storage = Local | Cloud

  /** Metadata of a document stored for a company. */
  datatype DocumentoCliente = DocumentoCliente(
    id: string,
    clienteId: string,
    nomeDocumento: string,
    nomeArquivo: string,
    caminhoArquivo: string,
    tamanhoArquivo: nat,
    tipoMime: string,
    tipoDocumento: Option<string>,
    tipoArmazenamento: Storage,
    dataUpload: Day)

  // Record keys, as first-class functions for the generic list operations.
  function AlvaraId(a: Alvara): string { a.id }
  function ClienteId(c: Cliente): string { c.id }
  function AtividadeId(a: AtividadeSecundaria): string { a.id }
  function DocumentoId(d: DocumentoCliente): string { d.id }
}
