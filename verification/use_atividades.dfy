/** The secondary-activity cache of one company. It calls `fetch` itself: a
    non-2xx answer becomes an `Error` with the operation's message. */
module UseAtividades {
  import opened Wrappers
  import opened Types
  import opened Gateway
  import Seqs
  import Cache

  /** `loadAtividades`: the fetched list replaces the cache; a failure is
      recorded, the list kept, and nothing is rethrown. */
  function LoadAtividades(s: Cache.State<AtividadeSecundaria>, h: Http<seq<AtividadeSecundaria>>)
    : (r: Cache.State<AtividadeSecundaria>)
    ensures h.Answered? ==> r.items == h.body && r.error == None
    ensures h.NotOk? ==> r.items == s.items && r.error == Some("Erro ao carregar atividades")
    ensures h.Rejected? ==>
              r.items == s.items && r.error == Some(Message(h.thrown, "Erro ao carregar atividades"))
  {
    var reply := Checked(h, "Erro ao carregar atividades");
    var r := Cache.Load(s, reply, a => a, "Erro ao carregar atividades");
    assert h.Answered? ==> r.items == h.body;
    r
  }

  /** `addAtividade`: on success the created activity is appended and returned. */
  function AddAtividade(s: Cache.State<AtividadeSecundaria>, h: Http<AtividadeSecundaria>)
    : (r: Cache.Step<AtividadeSecundaria, AtividadeSecundaria>)
    ensures h.Answered? ==>
              r.state.items == s.items + [h.body] && r.state.error == None && r.settled == Cache.Returned(h.body)
    ensures h.NotOk? ==> Cache.FailedWith(s, r, Error("Erro ao criar atividade"), "Erro ao criar atividade")
    ensures h.Rejected? ==> Cache.FailedWith(s, r, h.thrown, "Erro ao criar atividade")
  {
    var r := Cache.Add(s, Checked(h, "Erro ao criar atividade"), a => a, "Erro ao criar atividade");
    assert h.Answered? ==> r.state.items == r.state.items[..|s.items|] + [r.state.items[|s.items|]];
    r
  }

  /** `deleteAtividade`: on success exactly the activities with this id leave, in order. */
  function DeleteAtividade(s: Cache.State<AtividadeSecundaria>, id: string, h: Http<()>)
    : (r: Cache.Step<AtividadeSecundaria, ()>)
    ensures h.Answered? ==>
              && (forall i :: 0 <= i < |r.state.items| ==> r.state.items[i].id != id)
              && (forall i :: 0 <= i < |s.items| && s.items[i].id != id ==> s.items[i] in r.state.items)
              && Seqs.IsSubseq(r.state.items, s.items)
              && |r.state.items| == |s.items| - Seqs.CountKey(s.items, AtividadeId, id)
              && r.state.error == None
    ensures h.NotOk? ==> Cache.FailedWith(s, r, Error("Erro ao deletar atividade"), "Erro ao deletar atividade")
    ensures h.Rejected? ==> Cache.FailedWith(s, r, h.thrown, "Erro ao deletar atividade")
  {
    Cache.Delete(s, AtividadeId, id, Checked(h, "Erro ao deletar atividade"), "Erro ao deletar atividade")
  }

  /** Deleting, by its id, an activity just added under an id no other activity
      has leaves the list as it was before the add. */
  lemma AddThenDelete(s: Cache.State<AtividadeSecundaria>, v: AtividadeSecundaria)
    requires forall i :: 0 <= i < |s.items| ==> s.items[i].id != v.id
    ensures DeleteAtividade(AddAtividade(s, Answered(v)).state, v.id, Answered(())).state.items == s.items
  {
    Seqs.RemoveAppendedKey(s.items, v, AtividadeId);
  }

  /** A failed add followed by a failed delete leaves the activities untouched
      and the last failure's message recorded. */
  lemma FailuresKeepList(s: Cache.State<AtividadeSecundaria>, h: Http<AtividadeSecundaria>, id: string)
    requires !h.Answered?
    ensures var r := DeleteAtividade(AddAtividade(s, h).state, id, NotOk).state;
            r.items == s.items && r.error == Some("Erro ao deletar atividade")
  {
  }
}
