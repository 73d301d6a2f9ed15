/** The company cache: records are kept exactly as the gateway returns them. */
module UseClientes {
  import opened Wrappers
  import opened Types
  import opened Gateway
  import Seqs
  import Cache

  /** `loadClientes`: the cache becomes the fetched list itself; a failure
      is recorded and the list kept. */
  function LoadClientes(s: Cache.State<Cliente>, reply: Reply<seq<Cliente>>): (r: Cache.State<Cliente>)
    ensures reply.Ok? ==> r.items == reply.value && r.error == None
    ensures reply.Threw? ==>
              r.items == s.items && r.error == Some(Message(reply.thrown, "Erro ao carregar clientes"))
  {
    var r := Cache.Load(s, reply, c => c, "Erro ao carregar clientes");
    assert reply.Ok? ==> r.items == reply.value;
    r
  }

  /** `addCliente`: on success the returned record is appended and returned. */
  function AddCliente(s: Cache.State<Cliente>, reply: Reply<Cliente>): (r: Cache.Step<Cliente, Cliente>)
    ensures reply.Ok? ==>
              && r.state.items == s.items + [reply.value]
              && r.state.error == None
              && r.settled == Cache.Returned(reply.value)
    ensures reply.Threw? ==> Cache.FailedWith(s, r, reply.thrown, "Erro ao criar cliente")
  {
    var r := Cache.Add(s, reply, c => c, "Erro ao criar cliente");
    assert reply.Ok? ==> r.state.items == r.state.items[..|s.items|] + [r.state.items[|s.items|]];
    r
  }

  /** `updateCliente`: on success the records with this id become the
      returned record; the length and all other records stay. */
  function UpdateCliente(s: Cache.State<Cliente>, id: string, reply: Reply<Cliente>)
    : (r: Cache.Step<Cliente, Cliente>)
    ensures reply.Ok? ==>
              && |r.state.items| == |s.items|
              && (forall i :: 0 <= i < |s.items| && s.items[i].id == id ==> r.state.items[i] == reply.value)
              && (forall i :: 0 <= i < |s.items| && s.items[i].id != id ==> r.state.items[i] == s.items[i])
              && r.state.error == None
              && r.settled == Cache.Returned(reply.value)
    ensures reply.Threw? ==> Cache.FailedWith(s, r, reply.thrown, "Erro ao atualizar cliente")
  {
    Cache.Update(s, ClienteId, id, reply, c => c, "Erro ao atualizar cliente")
  }

  /** `deleteCliente`: on success exactly the records with this id leave, in order. */
  function DeleteCliente(s: Cache.State<Cliente>, id: string, reply: Reply<()>): (r: Cache.Step<Cliente, ()>)
    ensures reply.Ok? ==>
              && (forall i :: 0 <= i < |r.state.items| ==> r.state.items[i].id != id)
              && (forall i :: 0 <= i < |s.items| && s.items[i].id != id ==> s.items[i] in r.state.items)
              && Seqs.IsSubseq(r.state.items, s.items)
              && |r.state.items| == |s.items| - Seqs.CountKey(s.items, ClienteId, id)
              && r.state.error == None
    ensures reply.Threw? ==> Cache.FailedWith(s, r, reply.thrown, "Erro ao deletar cliente")
  {
    Cache.Delete(s, ClienteId, id, reply, "Erro ao deletar cliente")
  }

  /** `getClienteById`: the first cached record with this id, if any. */
  function GetClienteById(xs: seq<Cliente>, id: string): (r: Option<Cliente>)
    ensures r.None? <==> forall i :: 0 <= i < |xs| ==> xs[i].id != id
    ensures r.Some? ==> exists i :: 0 <= i < |xs| && xs[i] == r.value && r.value.id == id
                                    && forall j :: 0 <= j < i ==> xs[j].id != id
  {
    Seqs.FindFirst(xs, (c: Cliente) => c.id == id)
  }

  /** A record just added under a fresh id is found by that id. */
  lemma AddThenFind(s: Cache.State<Cliente>, c: Cliente)
    requires forall i :: 0 <= i < |s.items| ==> s.items[i].id != c.id
    ensures GetClienteById(AddCliente(s, Ok(c)).state.items, c.id) == Some(c)
  {
    var xs := AddCliente(s, Ok(c)).state.items;
    assert xs[|s.items|] == c;
  }

  /** Deleting an id makes it unfindable, whatever else the list holds. */
  lemma DeleteThenFind(s: Cache.State<Cliente>, id: string)
    ensures GetClienteById(DeleteCliente(s, id, Ok(())).state.items, id).None?
  {
  }
}
