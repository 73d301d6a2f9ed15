/** Permit status classification and the formatting helpers beside it. */
module AlvaraUtils {
  import opened Wrappers
  import opened Types
  import Text

  /** Days before expiration during which an issued permit counts as expiring. */
  const ExpiringWindow: int := 30

  /** `calculateAlvaraStatus`, with the clock reading passed in as `today`. */
  function CalculateStatus(issueDate: Option<Day>, expirationDate: Option<Day>, today: Day): (r: Status)
    ensures r == Pending <==> issueDate.None?
    ensures r == Expired <==> issueDate.Some? && expirationDate.Some? && expirationDate.value < today
    ensures r == Expiring <==>
              issueDate.Some? && expirationDate.Some?
              && today <= expirationDate.value < today + ExpiringWindow
    ensures r == Valid <==>
              issueDate.Some? && (expirationDate.None? || today + ExpiringWindow <= expirationDate.value)
  {
    if issueDate.None? then Pending
    else if expirationDate.None? then Valid
    else if expirationDate.value < today then Expired
    else if expirationDate.value < today + ExpiringWindow then Expiring
    else Valid
  }

  /** The status a permit's own dates give on `today`. */
  function StatusOf(a: Alvara, today: Day): Status {
    CalculateStatus(a.issueDate, a.expirationDate, today)
  }

  /** Position of an issued permit's status on the way from expired to valid. */
  function Rank(s: Status): nat {
    match s
    case Expired => 0
    case Expiring => 1
    case Valid => 2
    case Pending => 3
  }

  /** For an issued permit, a later expiration date never gives an earlier status. */
  lemma StatusMonotone(issue: Day, e1: Day, e2: Day, today: Day)
    requires e1 <= e2
    ensures Rank(CalculateStatus(Some(issue), Some(e1), today))
            <= Rank(CalculateStatus(Some(issue), Some(e2), today))
  {
  }

  /** The status depends only on how far the expiration lies from today. */
  lemma StatusShift(issue: Option<Day>, e: Day, today: Day, k: int)
    ensures CalculateStatus(issue, Some(e + k), today + k) == CalculateStatus(issue, Some(e), today)
  {
  }

  /** `getDaysUntilExpiration`: whole days from today to the expiration date. */
  function DaysUntilExpiration(expirationDate: Option<Day>, today: Day): (r: Option<int>)
    ensures r.None? <==> expirationDate.None?
    ensures r.Some? ==> today + r.value == expirationDate.value
  {
    match expirationDate
    case None => None
    case Some(e) => Some(e - today)
  }

  /** For an issued permit with an expiration date, the status is a function
      of the day count the tables display. */
  lemma StatusFromDays(issue: Day, e: Day, today: Day)
    ensures var s := CalculateStatus(Some(issue), Some(e), today);
            var d := DaysUntilExpiration(Some(e), today).value;
            && (s == Expired <==> d < 0)
            && (s == Expiring <==> 0 <= d < ExpiringWindow)
            && (s == Valid <==> ExpiringWindow <= d)
  {
  }

  /** `getStatusLabel`, with the label of `Valid` spelled as intended. */
  function StatusLabel(s: Status): (r: string)
    ensures WellEncoded(r)
    ensures |r| > 0
  {
    match s
    case Pending => "Pendente"
    case Valid => "V\U{E1}lido"
    case Expiring => "Vencendo"
    case Expired => "Vencido"
  }

  /** Different statuses get different labels. */
  lemma StatusLabelInjective(s: Status, t: Status)
    requires StatusLabel(s) == StatusLabel(t)
    ensures s == t
  {
  }

  /** `getStatusLabel` as the source spells it: the label of `Valid` holds
      the two UTF-8 bytes of "á" read back as two Latin-1 characters. */
  function StatusLabelAsWritten(s: Status): (r: string)
    ensures |r| > 0
    ensures s != Valid ==> r == StatusLabel(s)
    ensures s == Valid ==> !WellEncoded(r) && |r| == |StatusLabel(s)| + 1
  {
    match s
    case Pending => "Pendente"
    case Valid =>
      var w := "V\U{C3}\U{A1}lido";
      assert '\U{80}' <= w[2] <= '\U{BF}';
      w
    case Expiring => "Vencendo"
    case Expired => "Vencido"
  }

  /** No character of `s` is a UTF-8 continuation byte shown as Latin-1
      (U+0080 to U+00BF): a Portuguese word never contains one. */
  predicate WellEncoded(s: string) {
    forall i :: 0 <= i < |s| ==> !('\U{80}' <= s[i] <= '\U{BF}')
  }

  /** Latin-1 reading of the UTF-8 encoding of a string whose characters
      lie below U+0800: each character from U+0080 up becomes two. */
  function Misdecoded(s: string): string
    requires forall i :: 0 <= i < |s| ==> s[i] < '\U{800}'
  {
    if s == [] then []
    else
      var c := s[0] as int;
      (if c < 0x80 then [s[0]] else [(0xC0 + c / 64) as char, (0x80 + c % 64) as char])
      + Misdecoded(s[1..])
  }

  /** The source's `Valid` label is exactly the mis-decoded intended label,
      and it is not well encoded; the other three labels agree. */
  lemma StatusLabelMisencoded()
    ensures StatusLabelAsWritten(Valid) == Misdecoded(StatusLabel(Valid))
    ensures !WellEncoded(StatusLabelAsWritten(Valid))
    ensures forall s :: s != Valid ==> StatusLabelAsWritten(s) == StatusLabel(s)
  {
    var w := StatusLabelAsWritten(Valid);
    assert '\U{80}' <= w[2] <= '\U{BF}';
  }

  /** `NN.NNN.NNN/NNNN-NN`: punctuation at positions 2, 6, 10 and 15, digits elsewhere. */
  predicate IsCnpjMask(r: string) {
    && |r| == 18
    && r[2] == '.' && r[6] == '.' && r[10] == '/' && r[15] == '-'
    && forall i :: 0 <= i < 18 && i !in {2, 6, 10, 15} ==> Text.IsDigit(r[i])
  }

  /** `formatCnpj`: strip non-digits; mask exactly fourteen digits, pass any other count through. */
  function FormatCnpj(s: string): (r: string)
    ensures |Text.Digits(s)| == 14 ==> IsCnpjMask(r) && Text.Digits(r) == Text.Digits(s)
    ensures |Text.Digits(s)| != 14 ==> r == Text.Digits(s)
  {
    var d := Text.Digits(s);
    if |d| == 14 then
      MaskShape(d);
      MaskKeepsDigits(d);
      Mask(d)
    else d
  }

  function Mask(d: string): string
    requires |d| == 14
  {
    d[0..2] + "." + d[2..5] + "." + d[5..8] + "/" + d[8..12] + "-" + d[12..14]
  }

  lemma MaskKeepsDigits(d: string)
    requires |d| == 14 && Text.AllDigits(d)
    ensures Text.Digits(Mask(d)) == d
  {
    var a, b, c, e, f := d[0..2], d[2..5], d[5..8], d[8..12], d[12..14];
    DigitsOfSlice(d, 0, 2);
    DigitsOfSlice(d, 2, 5);
    DigitsOfSlice(d, 5, 8);
    DigitsOfSlice(d, 8, 12);
    DigitsOfSlice(d, 12, 14);
    DigitsStep([], a, '.', []);
    assert [] + a + "." == a + ".";
    DigitsStep(a + ".", b, '.', a);
    DigitsStep(a + "." + b + ".", c, '/', a + b);
    DigitsStep(a + "." + b + "." + c + "/", e, '-', a + b + c);
    Text.DigitsAppend(a + "." + b + "." + c + "/" + e + "-", f);
    assert Mask(d) == a + "." + b + "." + c + "/" + e + "-" + f;
    assert Text.Digits(Mask(d)) == a + b + c + e + f;
    assert d[..5] == a + b;
    assert d[..8] == a + b + c;
    assert d[..12] == a + b + c + e;
    assert d == d[..12] + f;
    
  }

  /** Appending a run of digits and a separator appends just the run. */
  lemma DigitsStep(x: string, y: string, sep: char, dx: string)
    requires Text.Digits(x) == dx && Text.Digits(y) == y && !Text.IsDigit(sep)
    ensures Text.Digits(x + y + [sep]) == dx + y
  {
    Text.DigitsAppend(x + y, [sep]);
    Text.DigitsAppend(x, y);
  }

  /** A run of a digit string is left whole by stripping. */
  lemma DigitsOfSlice(d: string, i: int, j: int)
    requires Text.AllDigits(d) && 0 <= i <= j <= |d|
    ensures Text.Digits(d[i..j]) == d[i..j]
  {
    assert Text.AllDigits(d[i..j]) by {
      forall k | 0 <= k < j - i
        ensures Text.IsDigit(d[i..j][k])
      {
        assert d[i..j][k] == d[i + k];
      }
    }
  }

  lemma MaskShape(d: string)
    requires |d| == 14 && Text.AllDigits(d)
    ensures IsCnpjMask(Mask(d))
  {
    var m := Mask(d);
    assert |m| == 18;
    assert forall i :: 0 <= i < 2 ==> m[i] == d[i];
    assert forall i :: 3 <= i < 6 ==> m[i] == d[i - 1];
    assert forall i :: 7 <= i < 10 ==> m[i] == d[i - 2];
    assert forall i :: 11 <= i < 15 ==> m[i] == d[i - 3];
    assert forall i :: 16 <= i < 18 ==> m[i] == d[i - 4];
  }

  /** Formatting an already formatted value changes nothing. */
  lemma FormatCnpjIdempotent(s: string)
    ensures FormatCnpj(FormatCnpj(s)) == FormatCnpj(s)
  {
  }

  /** Cleaning a formatted CNPJ and formatting it again gives the same mask. */
  lemma FormatCleanFormat(s: string)
    ensures FormatCnpj(Text.Digits(FormatCnpj(s))) == FormatCnpj(s)
  {
  }
}
