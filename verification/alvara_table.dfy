/** The permit table's "Prazo" column. */
module AlvaraTable {
  import opened Wrappers
  import opened Types
  import Text
  import AlvaraUtils

  const Overdue: string := " dias vencido"
  const Remaining: string := " dias"
  const DueToday: string := "Vence hoje"

  /** `getDaysText`: the signed day count to expiration as display text. */
  function GetDaysText(a: Alvara, today: Day): (r: string)
    ensures a.expirationDate.None? ==> r == "-"
    ensures a.expirationDate.Some? && a.expirationDate.value < today ==>
              r == Text.Decimal(today - a.expirationDate.value) + Overdue
    ensures a.expirationDate == Some(today) ==> r == DueToday
    ensures a.expirationDate.Some? && a.expirationDate.value > today ==>
              r == Text.Decimal(a.expirationDate.value - today) + Remaining
  {
    match AlvaraUtils.DaysUntilExpiration(a.expirationDate, today)
    case None => "-"
    case Some(days) =>
      if days < 0 then Text.Decimal(-days) + Overdue
      else if days == 0 then DueToday
      else Text.Decimal(days) + Remaining
  }

  /** Reads a day count back from the column's text; `None` for "-". */
  function ReadDaysText(t: string): Option<int> {
    if t == DueToday then Some(0)
    else if |t| > |Overdue| && t[|t| - |Overdue|..] == Overdue && Text.AllDigits(t[..|t| - |Overdue|]) then
      Some(0 - Text.ParseDecimal(t[..|t| - |Overdue|]) as int)
    else if |t| > |Remaining| && t[|t| - |Remaining|..] == Remaining && Text.AllDigits(t[..|t| - |Remaining|]) then
      Some(Text.ParseDecimal(t[..|t| - |Remaining|]))
    else None
  }

  /** The text loses nothing: reading it back gives the day count it shows. */
  lemma DaysTextRoundTrip(a: Alvara, today: Day)
    ensures ReadDaysText(GetDaysText(a, today)) == AlvaraUtils.DaysUntilExpiration(a.expirationDate, today)
  {
    var t := GetDaysText(a, today);
    if a.expirationDate.Some? {
      var days := a.expirationDate.value - today;
      if days < 0 {
        var n := Text.Decimal(-days);
        Text.DecimalRoundTrip(-days);
        assert t[..|t| - |Overdue|] == n;
        assert t[|t| - |Overdue|..] == Overdue;
        assert t != DueToday by { assert t[0] == n[0]; }
      } else if days > 0 {
        var n := Text.Decimal(days);
        Text.DecimalRoundTrip(days);
        assert t[..|t| - |Remaining|] == n;
        assert t[|t| - |Remaining|..] == Remaining;
        assert t != DueToday by { assert t[0] == n[0]; }
        if |t| > |Overdue| {
          assert t[|t| - 1] == 's';
          assert t[|t| - |Overdue|..][|Overdue| - 1] == t[|t| - 1];
        }
      }
    }
  }

  /** An issued permit shows an overdue count exactly when it is expired. */
  lemma OverdueTextIffExpired(a: Alvara, today: Day)
    requires a.issueDate.Some? && a.expirationDate.Some?
    ensures AlvaraUtils.StatusOf(a, today) == Expired <==> ReadDaysText(GetDaysText(a, today)).value < 0
  {
    DaysTextRoundTrip(a, today);
  }
}
