/** The company table's per-type permit columns. */
module ClienteTable {
  import opened Wrappers
  import opened Types
  import Seqs
  import UseAlvaras

  /** The permit a company's column of type `tipo` can show: owned by the
      company, of that type, and issued. */
  predicate Shows(a: Alvara, clienteId: string, tipo: string) {
    a.clienteId == clienteId && a.tipo == tipo && a.issueDate.Some?
  }

  /** `getAlvaraByTipo`: the first permit in list order the column can show. */
  function GetAlvaraByTipo(xs: seq<Alvara>, clienteId: string, tipo: string): (r: Option<Alvara>)
    ensures r.Some? ==> r.value.clienteId == clienteId && r.value.tipo == tipo && r.value.issueDate.Some?
    ensures r.None? <==> forall i :: 0 <= i < |xs| ==> !Shows(xs[i], clienteId, tipo)
    ensures r.Some? ==> exists i :: 0 <= i < |xs| && xs[i] == r.value
                                    && forall j :: 0 <= j < i ==> !Shows(xs[j], clienteId, tipo)
  {
    Seqs.FindFirst(xs, a => Shows(a, clienteId, tipo))
  }

  datatype Icon = CheckCircle | Clock | XCircle

  /** What a cell renders: a dash, or the expiration date with its status icon. */
  datatype Cell = Dash | Expiry(date: Day, icon: Option<Icon>)

  /** `getStatusIcon`: pending permits get no icon. */
  function StatusIcon(s: Status): (r: Option<Icon>)
    ensures r.None? <==> s == Pending
    ensures s == Valid ==> r == Some(CheckCircle)
    ensures s == Expiring ==> r == Some(Clock)
    ensures s == Expired ==> r == Some(XCircle)
  {
    match s
    case Valid => Some(CheckCircle)
    case Expiring => Some(Clock)
    case Expired => Some(XCircle)
    case Pending => None
  }

  /** Dated statuses get pairwise different icons, so the icon tells the
      status back. */
  lemma StatusIconInjective(s: Status, t: Status)
    requires s != Pending && t != Pending
    requires StatusIcon(s) == StatusIcon(t)
    ensures s == t
  {
  }

  /** `AlvaraCell`: a dash when there is no permit or it has no expiration date. */
  function AlvaraCell(a: Option<Alvara>): (r: Cell)
    ensures r.Dash? <==> a.None? || a.value.expirationDate.None?
    ensures r.Expiry? ==> r.date == a.value.expirationDate.value && r.icon == StatusIcon(a.value.status)
  {
    if a.None? || a.value.expirationDate.None? then Dash
    else Expiry(a.value.expirationDate.value, StatusIcon(a.value.status))
  }

  /** A company whose permits of a type are all still in opening shows a dash
      in that column, whatever dates they carry. */
  lemma OpeningPermitsShowDash(xs: seq<Alvara>, clienteId: string, tipo: string)
    requires forall i :: 0 <= i < |xs| && xs[i].clienteId == clienteId && xs[i].tipo == tipo
               ==> xs[i].issueDate.None?
    ensures AlvaraCell(GetAlvaraByTipo(xs, clienteId, tipo)) == Dash
  {
  }

  /** In a cache whose statuses come from the dates, a dated cell always has an icon. */
  lemma DatedCellHasIcon(xs: seq<Alvara>, clienteId: string, tipo: string)
    requires UseAlvaras.PendingIffUnissued(xs)
    ensures AlvaraCell(GetAlvaraByTipo(xs, clienteId, tipo)).Expiry? ==>
              AlvaraCell(GetAlvaraByTipo(xs, clienteId, tipo)).icon.Some?
  {
    var r := GetAlvaraByTipo(xs, clienteId, tipo);
    if r.Some? {
      var i :| 0 <= i < |xs| && xs[i] == r.value && forall j :: 0 <= j < i ==> !Shows(xs[j], clienteId, tipo);
      assert xs[i].status != Pending;
    }
  }
}
