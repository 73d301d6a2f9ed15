/** The permit cache: every record it receives gets its status recomputed
    from its own dates, and the aggregate counts are taken by status. */
module UseAlvaras {
  import opened Wrappers
  import opened Types
  import opened Gateway
  import Seqs
  import Cache
  import AlvaraUtils

  /** The hook's normalisation: the received status is discarded and recomputed. */
  function Normalize(a: Alvara, today: Day): (r: Alvara)
    ensures r.status == AlvaraUtils.StatusOf(a, today)
    ensures r.(status := a.status) == a
  {
    a.(status := AlvaraUtils.CalculateStatus(a.issueDate, a.expirationDate, today))
  }

  /** Every cached status is the one the record's dates give on `today`. */
  ghost predicate Fresh(xs: seq<Alvara>, today: Day) {
    forall i :: 0 <= i < |xs| ==> xs[i].status == AlvaraUtils.StatusOf(xs[i], today)
  }

  /** A cached permit is pending exactly when it has no issue date; unlike
      `Fresh`, this does not depend on which day the status was computed. */
  ghost predicate PendingIffUnissued(xs: seq<Alvara>) {
    forall i :: 0 <= i < |xs| ==> (xs[i].status == Pending <==> xs[i].issueDate.None?)
  }

  lemma FreshIsWellFormed(xs: seq<Alvara>, today: Day)
    requires Fresh(xs, today)
    ensures PendingIffUnissued(xs)
  {
  }

  /** `loadAlvaras`: the fetched list, each status recomputed; a failure is
      recorded and the list kept. */
  function LoadAlvaras(s: Cache.State<Alvara>, reply: Reply<seq<Alvara>>, today: Day): (r: Cache.State<Alvara>)
    ensures reply.Ok? ==>
              && Fresh(r.items, today)
              && |r.items| == |reply.value|
              && (forall i :: 0 <= i < |r.items| ==> r.items[i].(status := reply.value[i].status) == reply.value[i])
              && r.error == None
    ensures reply.Threw? ==>
              && r.items == s.items
              && r.error == Some(Message(reply.thrown, "Erro ao carregar alvarás"))
  {
    Cache.Load(s, reply, a => Normalize(a, today), "Erro ao carregar alvarás")
  }

  /** `addAlvara`: on success the created record, status recomputed, is
      appended and returned; the records before it are untouched. */
  function AddAlvara(s: Cache.State<Alvara>, reply: Reply<Alvara>, today: Day): (r: Cache.Step<Alvara, Alvara>)
    ensures reply.Ok? ==>
              && |r.state.items| == |s.items| + 1
              && r.state.items[..|s.items|] == s.items
              && r.state.items[|s.items|] == Normalize(reply.value, today)
              && r.state.error == None
              && r.settled == Cache.Returned(r.state.items[|s.items|])
    ensures reply.Threw? ==> Cache.FailedWith(s, r, reply.thrown, "Erro ao criar alvará")
    ensures Fresh(s.items, today) ==> Fresh(r.state.items, today)
    ensures PendingIffUnissued(s.items) ==> PendingIffUnissued(r.state.items)
  {
    Cache.Add(s, reply, a => Normalize(a, today), "Erro ao criar alvará")
  }

  /** `updateAlvara`: on success every record with this id becomes the
      returned record with its status recomputed; nothing else moves. */
  function UpdateAlvara(s: Cache.State<Alvara>, id: string, reply: Reply<Alvara>, today: Day)
    : (r: Cache.Step<Alvara, Alvara>)
    ensures reply.Ok? ==>
              && |r.state.items| == |s.items|
              && (forall i :: 0 <= i < |s.items| && s.items[i].id == id ==>
                    r.state.items[i] == Normalize(reply.value, today))
              && (forall i :: 0 <= i < |s.items| && s.items[i].id != id ==> r.state.items[i] == s.items[i])
              && r.state.error == None
              && r.settled == Cache.Returned(Normalize(reply.value, today))
    ensures reply.Threw? ==> Cache.FailedWith(s, r, reply.thrown, "Erro ao atualizar alvará")
    ensures Fresh(s.items, today) ==> Fresh(r.state.items, today)
    ensures PendingIffUnissued(s.items) ==> PendingIffUnissued(r.state.items)
  {
    Cache.Update(s, AlvaraId, id, reply, a => Normalize(a, today), "Erro ao atualizar alvará")
  }

  /** `deleteAlvara`: on success exactly the records with this id leave, the
      rest keep their order. */
  function DeleteAlvara(s: Cache.State<Alvara>, id: string, reply: Reply<()>): (r: Cache.Step<Alvara, ()>)
    ensures reply.Ok? ==>
              && (forall i :: 0 <= i < |r.state.items| ==> r.state.items[i].id != id)
              && (forall i :: 0 <= i < |s.items| && s.items[i].id != id ==> s.items[i] in r.state.items)
              && Seqs.IsSubseq(r.state.items, s.items)
              && |r.state.items| == |s.items| - Seqs.CountKey(s.items, AlvaraId, id)
              && r.state.error == None
    ensures reply.Threw? ==> Cache.FailedWith(s, r, reply.thrown, "Erro ao deletar alvará")
    ensures forall today :: Fresh(s.items, today) ==> Fresh(r.state.items, today)
    ensures PendingIffUnissued(s.items) ==> PendingIffUnissued(r.state.items)
  {
    Cache.Delete(s, AlvaraId, id, reply, "Erro ao deletar alvará")
  }

  /** The number of records with status `st`: `xs.filter(a => a.status === st).length`. */
  function CountStatus(xs: seq<Alvara>, st: Status): nat {
    |Seqs.Filter(xs, (a: Alvara) => a.status == st)|
  }

  datatype Stats = Stats(total: nat, pending: nat, valid: nat, expiring: nat, expired: nat)

  /** The statuses of `xs`, in order. */
  function Statuses(xs: seq<Alvara>): (r: seq<Status>)
    ensures |r| == |xs|
    ensures forall i :: 0 <= i < |xs| ==> r[i] == xs[i].status
  {
    seq(|xs|, i requires 0 <= i < |xs| => xs[i].status)
  }

  /** Counting with a filter agrees with the multiplicity of `st` among the
      statuses of `xs`. */
  lemma {:induction false} CountStatusMultiplicity(xs: seq<Alvara>, st: Status)
    ensures CountStatus(xs, st) == multiset(Statuses(xs))[st]
  {
    if xs != [] {
      CountStatusMultiplicity(xs[1..], st);
      assert Statuses(xs) == [xs[0].status] + Statuses(xs[1..]);
    }
  }

  /** `stats`: the list size and the count of each status. */
  function StatsOf(xs: seq<Alvara>): (r: Stats)
    ensures r.total == |xs|
    ensures r.pending == multiset(Statuses(xs))[Pending]
    ensures r.valid == multiset(Statuses(xs))[Valid]
    ensures r.expiring == multiset(Statuses(xs))[Expiring]
    ensures r.expired == multiset(Statuses(xs))[Expired]
    ensures r.pending + r.valid + r.expiring + r.expired == r.total
  {
    StatusCountsSum(xs);
    CountStatusMultiplicity(xs, Pending);
    CountStatusMultiplicity(xs, Valid);
    CountStatusMultiplicity(xs, Expiring);
    CountStatusMultiplicity(xs, Expired);
    Stats(|xs|, CountStatus(xs, Pending), CountStatus(xs, Valid),
          CountStatus(xs, Expiring), CountStatus(xs, Expired))
  }

  /** Every record has exactly one of the four statuses. */
  lemma {:induction false} StatusCountsSum(xs: seq<Alvara>)
    ensures CountStatus(xs, Pending) + CountStatus(xs, Valid)
            + CountStatus(xs, Expiring) + CountStatus(xs, Expired) == |xs|
  {
    if xs != [] {
      StatusCountsSum(xs[1..]);
    }
  }
}
