/** The document cache of one company. Like the activity cache it calls
    `fetch` itself; the uploaded bytes are not modelled, only the reply. */
module UseDocumentos {
  import opened Wrappers
  import opened Types
  import opened Gateway
  import Seqs
  import Cache

  /** `loadDocumentos`: the fetched list replaces the cache; a failure is
      recorded, the list kept, and nothing is rethrown. */
  function LoadDocumentos(s: Cache.State<DocumentoCliente>, h: Http<seq<DocumentoCliente>>)
    : (r: Cache.State<DocumentoCliente>)
    ensures h.Answered? ==> r.items == h.body && r.error == None
    ensures h.NotOk? ==> r.items == s.items && r.error == Some("Erro ao carregar documentos")
    ensures h.Rejected? ==>
              r.items == s.items && r.error == Some(Message(h.thrown, "Erro ao carregar documentos"))
  {
    var r := Cache.Load(s, Checked(h, "Erro ao carregar documentos"), d => d, "Erro ao carregar documentos");
    assert h.Answered? ==> r.items == h.body;
    r
  }

  /** `uploadDocumento`: on success the stored document's record is appended and returned. */
  function UploadDocumento(s: Cache.State<DocumentoCliente>, h: Http<DocumentoCliente>)
    : (r: Cache.Step<DocumentoCliente, DocumentoCliente>)
    ensures h.Answered? ==>
              r.state.items == s.items + [h.body] && r.state.error == None && r.settled == Cache.Returned(h.body)
    ensures h.NotOk? ==> Cache.FailedWith(s, r, Error("Erro ao fazer upload"), "Erro ao fazer upload")
    ensures h.Rejected? ==> Cache.FailedWith(s, r, h.thrown, "Erro ao fazer upload")
  {
    var r := Cache.Add(s, Checked(h, "Erro ao fazer upload"), d => d, "Erro ao fazer upload");
    assert h.Answered? ==> r.state.items == r.state.items[..|s.items|] + [r.state.items[|s.items|]];
    r
  }

  /** `deleteDocumento`: on success exactly the documents with this id leave, in order. */
  function DeleteDocumento(s: Cache.State<DocumentoCliente>, id: string, h: Http<()>)
    : (r: Cache.Step<DocumentoCliente, ()>)
    ensures h.Answered? ==>
              && (forall i :: 0 <= i < |r.state.items| ==> r.state.items[i].id != id)
              && (forall i :: 0 <= i < |s.items| && s.items[i].id != id ==> s.items[i] in r.state.items)
              && Seqs.IsSubseq(r.state.items, s.items)
              && |r.state.items| == |s.items| - Seqs.CountKey(s.items, DocumentoId, id)
              && r.state.error == None
    ensures h.NotOk? ==> Cache.FailedWith(s, r, Error("Erro ao deletar documento"), "Erro ao deletar documento")
    ensures h.Rejected? ==> Cache.FailedWith(s, r, h.thrown, "Erro ao deletar documento")
  {
    Cache.Delete(s, DocumentoId, id, Checked(h, "Erro ao deletar documento"), "Erro ao deletar documento")
  }

  /** Deleting, by its id, a document just added under an id no other document
      has leaves the list as it was before the add. */
  lemma UploadThenDelete(s: Cache.State<DocumentoCliente>, v: DocumentoCliente)
    requires forall i :: 0 <= i < |s.items| ==> s.items[i].id != v.id
    ensures DeleteDocumento(UploadDocumento(s, Answered(v)).state, v.id, Answered(())).state.items == s.items
  {
    Seqs.RemoveAppendedKey(s.items, v, DocumentoId);
  }

  /** A failed upload followed by a failed delete leaves the documents untouched
      and the last failure's message recorded. */
  lemma FailuresKeepList(s: Cache.State<DocumentoCliente>, h: Http<DocumentoCliente>, id: string)
    requires !h.Answered?
    ensures var r := DeleteDocumento(UploadDocumento(s, h).state, id, NotOk).state;
            r.items == s.items && r.error == Some("Erro ao deletar documento")
  {
  }
}
