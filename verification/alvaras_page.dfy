/** The permit page: the split into permits still in opening ("em abertura",
    no issue date) and in operation ("em funcionamento"), per-tab counts,
    search and status filtering, and the submit and finalize actions. */
module AlvarasPage {
  import opened Wrappers
  import opened Types
  import opened Gateway
  import Seqs
  import Text
  import Cache
  import AlvaraUtils
  import UseAlvaras

  datatype Tab = Novos | Funcionamento

  /** The status select: everything, or one status. */
  datatype StatusFilter = All | Only(status: Status)

  /** The toast the page shows, by title. */
  datatype Notice =
    | ClienteObrigatorio
    | TipoObrigatorio
    | AlvaraConcluido
    | AlvaraAtualizado
    | AlvaraCadastrado
    | AlvaraFinalizado
    | Erro(description: string)

  /** The gateway request an action issues, if any. */
  datatype Call = NoCall | CreateCall(data: AlvaraFormData) | UpdateCall(id: string, data: AlvaraFormData)

  /** The page's state. `finalizationDate` is the confirmation dialog's date
      input; an empty input is `None`. */
  datatype Page = Page(
    cache: Cache.State<Alvara>,
    tab: Tab,
    formOpen: bool,
    editing: Option<Alvara>,
    finalizing: Option<Alvara>,
    finalizationDate: Option<Day>,
    notice: Option<Notice>)

  datatype Submission = Submission(page: Page, call: Call)

  predicate IsNovo(a: Alvara) {
    a.issueDate.None?
  }

  predicate IsEmFuncionamento(a: Alvara) {
    a.issueDate.Some?
  }

  /** `novosAlvaras`: the unissued permits, in list order. */
  function NovosAlvaras(xs: seq<Alvara>): (r: seq<Alvara>)
    ensures forall i :: 0 <= i < |r| ==> r[i].issueDate.None?
    ensures forall i :: 0 <= i < |xs| && xs[i].issueDate.None? ==> xs[i] in r
    ensures Seqs.IsSubseq(r, xs)
  {
    Seqs.FilterIsSubseq(xs, IsNovo);
    Seqs.Filter(xs, IsNovo)
  }

  /** `alvarasEmFuncionamento`: the issued permits, in list order. */
  function AlvarasEmFuncionamento(xs: seq<Alvara>): (r: seq<Alvara>)
    ensures forall i :: 0 <= i < |r| ==> r[i].issueDate.Some?
    ensures forall i :: 0 <= i < |xs| && xs[i].issueDate.Some? ==> xs[i] in r
    ensures Seqs.IsSubseq(r, xs)
  {
    Seqs.FilterIsSubseq(xs, IsEmFuncionamento);
    Seqs.Filter(xs, IsEmFuncionamento)
  }

  /** The two tabs split the list: no permit is on both, and together they
      hold every permit exactly as often as the list does. */
  lemma {:induction false} TabsPartition(xs: seq<Alvara>)
    ensures multiset(NovosAlvaras(xs)) + multiset(AlvarasEmFuncionamento(xs)) == multiset(xs)
    ensures |NovosAlvaras(xs)| + |AlvarasEmFuncionamento(xs)| == |xs|
    ensures forall a :: a in NovosAlvaras(xs) ==> a !in AlvarasEmFuncionamento(xs)
  {
    Seqs.FilterPartition(xs, IsNovo, IsEmFuncionamento);
  }

  datatype StatsNovos = StatsNovos(total: nat, pending: nat)

  datatype StatsFuncionamento = StatsFuncionamento(total: nat, valid: nat, expiring: nat, expired: nat)

  /** `statsNovos`: the size of the opening tab and how many of its permits
      are pending. */
  function StatsNovosOf(xs: seq<Alvara>): (r: StatsNovos)
    ensures r.total == |NovosAlvaras(xs)|
    ensures r.pending == multiset(UseAlvaras.Statuses(NovosAlvaras(xs)))[Pending]
    ensures r.pending <= r.total
  {
    var n := NovosAlvaras(xs);
    UseAlvaras.CountStatusMultiplicity(n, Pending);
    UseAlvaras.StatusCountsSum(n);
    StatsNovos(|n|, UseAlvaras.CountStatus(n, Pending))
  }

  /** `statsFuncionamento`: the size of the operating tab and the count of
      each dated status in it. */
  function StatsFuncionamentoOf(xs: seq<Alvara>): (r: StatsFuncionamento)
    ensures r.total == |AlvarasEmFuncionamento(xs)|
    ensures r.valid == multiset(UseAlvaras.Statuses(AlvarasEmFuncionamento(xs)))[Valid]
    ensures r.expiring == multiset(UseAlvaras.Statuses(AlvarasEmFuncionamento(xs)))[Expiring]
    ensures r.expired == multiset(UseAlvaras.Statuses(AlvarasEmFuncionamento(xs)))[Expired]
    ensures r.valid + r.expiring + r.expired <= r.total
  {
    var f := AlvarasEmFuncionamento(xs);
    UseAlvaras.CountStatusMultiplicity(f, Valid);
    UseAlvaras.CountStatusMultiplicity(f, Expiring);
    UseAlvaras.CountStatusMultiplicity(f, Expired);
    UseAlvaras.StatusCountsSum(f);
    StatsFuncionamento(|f|, UseAlvaras.CountStatus(f, Valid),
                       UseAlvaras.CountStatus(f, Expiring), UseAlvaras.CountStatus(f, Expired))
  }

  /** In a cache whose statuses were derived from the dates, every permit in
      opening is pending. */
  lemma StatsNovosAllPending(xs: seq<Alvara>)
    requires UseAlvaras.PendingIffUnissued(xs)
    ensures StatsNovosOf(xs).pending == StatsNovosOf(xs).total
  {
    var n := NovosAlvaras(xs);
    assert forall i :: 0 <= i < |n| ==> n[i].status == Pending;
    Seqs.FilterAll(n, (a: Alvara) => a.status == Pending);
  }

  /** In such a cache, every permit in operation is valid, expiring or expired. */
  lemma StatsFuncionamentoSum(xs: seq<Alvara>)
    requires UseAlvaras.PendingIffUnissued(xs)
    ensures var s := StatsFuncionamentoOf(xs); s.valid + s.expiring + s.expired == s.total
  {
    var f := AlvarasEmFuncionamento(xs);
    UseAlvaras.StatusCountsSum(f);
    NoneMatch(f, Pending);
  }

  /** No element of `xs` has status `st`, so none is counted. */
  lemma {:induction false} NoneMatch(xs: seq<Alvara>, st: Status)
    requires forall i :: 0 <= i < |xs| ==> xs[i].status != st
    ensures UseAlvaras.CountStatus(xs, st) == 0
  {
    if xs != [] {
      NoneMatch(xs[1..], st);
    }
  }

  /** The list the active tab shows before filtering. */
  function TabList(xs: seq<Alvara>, tab: Tab): seq<Alvara> {
    if tab == Novos then NovosAlvaras(xs) else AlvarasEmFuncionamento(xs)
  }

  /** A permit without a client name or a type is never listed. */
  predicate Listable(a: Alvara) {
    a.clientName != "" && a.tipo != ""
  }

  /** Client name or type contains the term case-insensitively, or the CNPJ contains it verbatim. */
  predicate MatchesSearch(a: Alvara, search: string) {
    || Text.Includes(Text.ToLower(a.clientName), Text.ToLower(search))
    || Text.Includes(a.clientCnpj, search)
    || Text.Includes(Text.ToLower(a.tipo), Text.ToLower(search))
  }

  predicate MatchesStatus(a: Alvara, filter: StatusFilter) {
    filter.All? || a.status == filter.status
  }

  predicate Shown(a: Alvara, search: string, filter: StatusFilter) {
    Listable(a) && MatchesSearch(a, search) && MatchesStatus(a, filter)
  }

  /** `filteredAlvaras`: the active tab's permits that pass the search and
      status filter, in order. */
  function FilteredAlvaras(xs: seq<Alvara>, tab: Tab, search: string, filter: StatusFilter): (r: seq<Alvara>)
    ensures Seqs.IsSubseq(r, TabList(xs, tab))
    ensures forall i :: 0 <= i < |r| ==> Shown(r[i], search, filter)
    ensures forall i :: 0 <= i < |TabList(xs, tab)| && Shown(TabList(xs, tab)[i], search, filter)
              ==> TabList(xs, tab)[i] in r
  {
    var l := TabList(xs, tab);
    Seqs.FilterIsSubseq(l, a => Shown(a, search, filter));
    Seqs.Filter(l, a => Shown(a, search, filter))
  }

  /** With no search term and the status filter on "all", the tab shows
      every permit it holds that has a client name and a type. */
  lemma FilteredUnrestricted(xs: seq<Alvara>, tab: Tab)
    ensures FilteredAlvaras(xs, tab, "", All) == Seqs.Filter(TabList(xs, tab), Listable)
  {
    var l := TabList(xs, tab);
    forall a | true
      ensures Shown(a, "", All) == Listable(a)
    {
      Text.IncludesEmpty(Text.ToLower(a.clientName));
    }
    FilterSame(l, a => Shown(a, "", All), Listable);
  }

  /** Filtering by two predicates that agree everywhere gives the same list. */
  lemma {:induction false} FilterSame(xs: seq<Alvara>, p: Alvara -> bool, q: Alvara -> bool)
    requires forall a :: p(a) == q(a)
    ensures Seqs.Filter(xs, p) == Seqs.Filter(xs, q)
  {
    if xs != [] {
      FilterSame(xs[1..], p, q);
    }
  }

  /** `handleAddAlvara`: both guards first, then update the permit being
      edited or create a new one. On success the form closes; on failure it
      stays open with an error toast. */
  function HandleAddAlvara(p: Page, data: AlvaraFormData, reply: Reply<Alvara>, today: Day): (r: Submission)
    ensures data.clienteId == "" || data.tipo == "" ==>
              r.call == NoCall && r.page.cache == p.cache && r.page.formOpen == p.formOpen
              && r.page.editing == p.editing && r.page.tab == p.tab
    ensures data.clienteId == "" ==> r.page.notice == Some(ClienteObrigatorio)
    ensures data.clienteId != "" && data.tipo == "" ==> r.page.notice == Some(TipoObrigatorio)
    ensures data.clienteId != "" && data.tipo != "" ==>
              r.call == (if p.editing.Some? then UpdateCall(p.editing.value.id, data) else CreateCall(data))
    ensures r.call != NoCall && reply.Ok? ==> !r.page.formOpen && r.page.editing.None?
    ensures r.call != NoCall && reply.Threw? ==>
              && r.page.formOpen == p.formOpen && r.page.editing == p.editing && r.page.tab == p.tab
              && r.page.cache.items == p.cache.items
              && r.page.notice == Some(Erro(Message(reply.thrown, "Erro ao salvar alvará")))
    ensures r.call.UpdateCall? && reply.Ok? && p.editing.value.issueDate.None? && data.issueDate.Some? ==>
              r.page.tab == Funcionamento && r.page.notice == Some(AlvaraConcluido)
    ensures r.call.UpdateCall? && reply.Ok? && !(p.editing.value.issueDate.None? && data.issueDate.Some?) ==>
              r.page.tab == p.tab && r.page.notice == Some(AlvaraAtualizado)
    ensures r.call.CreateCall? && reply.Ok? ==>
              && r.page.tab == p.tab && r.page.notice == Some(AlvaraCadastrado)
              && r.page.cache.items == p.cache.items + [UseAlvaras.Normalize(reply.value, today)]
    ensures r.call.CreateCall? ==> r.page.cache == UseAlvaras.AddAlvara(p.cache, reply, today).state
    ensures r.call.UpdateCall? ==> r.page.cache == UseAlvaras.UpdateAlvara(p.cache, r.call.id, reply, today).state
  {
    if data.clienteId == "" then Submission(p.(notice := Some(ClienteObrigatorio)), NoCall)
    else if data.tipo == "" then Submission(p.(notice := Some(TipoObrigatorio)), NoCall)
    else match p.editing
      case Some(e) =>
        var step := UseAlvaras.UpdateAlvara(p.cache, e.id, reply, today);
        var call := UpdateCall(e.id, data);
        if step.settled.Rethrown? then
          Submission(p.(cache := step.state, notice := Some(Erro(Message(step.settled.thrown, "Erro ao salvar alvará")))), call)
        else
          var concluded := e.issueDate.None? && data.issueDate.Some?;
          Submission(p.(cache := step.state,
                        tab := if concluded then Funcionamento else p.tab,
                        notice := Some(if concluded then AlvaraConcluido else AlvaraAtualizado),
                        formOpen := false,
                        editing := None), call)
      case None =>
        var step := UseAlvaras.AddAlvara(p.cache, reply, today);
        var call := CreateCall(data);
        if step.settled.Rethrown? then
          Submission(p.(cache := step.state, notice := Some(Erro(Message(step.settled.thrown, "Erro ao salvar alvará")))), call)
        else
          Submission(p.(cache := step.state, notice := Some(AlvaraCadastrado), formOpen := false, editing := None), call)
  }

  /** `handleFinalize`: open the confirmation dialog with an empty date. */
  function HandleFinalize(p: Page, a: Alvara): (r: Page)
    ensures r.finalizing == Some(a) && r.finalizationDate.None?
    ensures r.(finalizing := p.finalizing, finalizationDate := p.finalizationDate) == p
  {
    p.(finalizing := Some(a), finalizationDate := None)
  }

  /** `handleConfirmFinalize`: with a permit and a date chosen, send the
      permit back with `issueDate` today and the chosen expiration date,
      then move to the operation tab. */
  function HandleConfirmFinalize(p: Page, reply: Reply<Alvara>, today: Day): (r: Submission)
    ensures p.finalizing.None? || p.finalizationDate.None? ==> r == Submission(p, NoCall)
    ensures p.finalizing.Some? && p.finalizationDate.Some? ==>
              && r.call.UpdateCall?
              && r.call.id == p.finalizing.value.id
              && r.call.data.issueDate == Some(today)
              && r.call.data.expirationDate == p.finalizationDate
              && r.call.data.(issueDate := p.finalizing.value.issueDate,
                              expirationDate := p.finalizing.value.expirationDate)
                 == FormOf(p.finalizing.value)
    ensures r.call != NoCall && reply.Ok? ==>
              r.page.tab == Funcionamento && r.page.finalizing.None? && r.page.finalizationDate.None?
              && r.page.notice == Some(AlvaraFinalizado)
    ensures r.call != NoCall && reply.Threw? ==>
              && r.page.finalizing == p.finalizing && r.page.tab == p.tab
              && r.page.cache.items == p.cache.items
              && r.page.notice == Some(Erro(Message(reply.thrown, "Erro ao finalizar alvará")))
    ensures r.call != NoCall ==>
              r.page.cache == UseAlvaras.UpdateAlvara(p.cache, p.finalizing.value.id, reply, today).state
  {
    if p.finalizing.None? || p.finalizationDate.None? then Submission(p, NoCall)
    else
      var a := p.finalizing.value;
      var payload := FinalizePayload(a, today, p.finalizationDate.value);
      var step := UseAlvaras.UpdateAlvara(p.cache, a.id, reply, today);
      if step.settled.Rethrown? then
        Submission(p.(cache := step.state, notice := Some(Erro(Message(step.settled.thrown, "Erro ao finalizar alvará")))),
                   UpdateCall(a.id, payload))
      else
        Submission(p.(cache := step.state, finalizing := None, finalizationDate := None,
                      tab := Funcionamento, notice := Some(AlvaraFinalizado)),
                   UpdateCall(a.id, payload))
  }

  /** What finalizing sends: the permit's own fields with the two dates set. */
  function FinalizePayload(a: Alvara, today: Day, expiration: Day): AlvaraFormData {
    FormOf(a).(issueDate := Some(today), expirationDate := Some(expiration))
  }

  /** The record a gateway that stores the payload as sent returns. */
  function Stored(a: Alvara, d: AlvaraFormData): Alvara {
    a.(clienteId := d.clienteId, clientName := d.clientName, clientCnpj := d.clientCnpj, tipo := d.tipo,
       requestDate := d.requestDate, issueDate := d.issueDate, expirationDate := d.expirationDate,
       notes := d.notes)
  }

  /** Finalizing a permit against a gateway that stores what it is sent
      moves it out of the opening tab and into the operation tab, with a
      status that is no longer pending. */
  lemma FinalizeMovesPermit(p: Page, today: Day)
    requires p.finalizing.Some? && p.finalizationDate.Some?
    requires p.finalizing.value in p.cache.items
    ensures var a := p.finalizing.value;
            var b := Stored(a, FinalizePayload(a, today, p.finalizationDate.value));
            var ys := HandleConfirmFinalize(p, Ok(b), today).page.cache.items;
            && UseAlvaras.Normalize(b, today) in AlvarasEmFuncionamento(ys)
            && (forall x :: x in NovosAlvaras(ys) ==> x.id != a.id)
            && UseAlvaras.Normalize(b, today).status != Pending
  {
    var a := p.finalizing.value;
    var b := Stored(a, FinalizePayload(a, today, p.finalizationDate.value));
    var xs := p.cache.items;
    var ys := HandleConfirmFinalize(p, Ok(b), today).page.cache.items;
    var moved := UseAlvaras.Normalize(b, today);
    var i :| 0 <= i < |xs| && xs[i] == a;
    assert ys[i] == moved;
    forall x | x in NovosAlvaras(ys)
      ensures x.id != a.id
    {
      var j :| 0 <= j < |ys| && ys[j] == x;
      // had xs[j] carried a's id, ys[j] would be the issued record `moved`
    }
  }

  /** Completing a permit in opening (editing it to carry an issue date),
      against a gateway that stores what it is sent, moves it out of the
      opening tab and into the operation tab, and shows that tab. */
  lemma CompletingMovesPermit(p: Page, data: AlvaraFormData, today: Day)
    requires data.clienteId != "" && data.tipo != ""
    requires p.editing.Some? && p.editing.value in p.cache.items
    requires p.editing.value.issueDate.None? && data.issueDate.Some?
    ensures var a := p.editing.value;
            var b := Stored(a, data);
            var r := HandleAddAlvara(p, data, Ok(b), today);
            && r.page.tab == Funcionamento
            && UseAlvaras.Normalize(b, today) in AlvarasEmFuncionamento(r.page.cache.items)
            && (forall x :: x in NovosAlvaras(r.page.cache.items) ==> x.id != a.id)
  {
    var a := p.editing.value;
    var b := Stored(a, data);
    var xs := p.cache.items;
    var ys := HandleAddAlvara(p, data, Ok(b), today).page.cache.items;
    var i :| 0 <= i < |xs| && xs[i] == a;
    assert ys[i] == UseAlvaras.Normalize(b, today);
    forall x | x in NovosAlvaras(ys)
      ensures x.id != a.id
    {
      var j :| 0 <= j < |ys| && ys[j] == x;
      // had xs[j] carried a's id, ys[j] would be the issued record
    }
  }
}
