/** What the create and edit screens share: the category list they offer, the
    capacity field's input filter and how its text becomes a capacity, and the
    "HH:mm" text the time picker writes. */
module EventForm {
  import opened Common

  /** The categories both event forms offer. */
  const Categorias: seq<string> := ["General", "Deportes", "Música", "Tecnología", "Arte",
                                    "Educación", "Negocios", "Social", "Otro"]

  /** The capacity field takes a new text only when it is empty or all digits. */
  predicate AcceptsCapacity(s: string) {
    s == [] || AllDigits(s)
  }

  /** A text the capacity field accepted parses to its decimal value, so a stored
      capacity is never negative; an empty text, or one beyond Int's range, gives no
      capacity at all. */
  lemma CapacityParses(s: string)
    requires AcceptsCapacity(s)
    ensures s == [] ==> ToIntOrNull(s) == None
    ensures s != [] ==> ToIntOrNull(s) == if DigitsValue(s) <= IntMax then Some(DigitsValue(s)) else None
    ensures ToIntOrNull(s).Some? ==> ToIntOrNull(s).value >= 0
  {
    if s != [] {
      assert IsDigit(s[0]);
    }
  }

  /** "%02d": at least two digits, zero-padded. */
  function Pad2(n: nat): (r: string)
    ensures AllDigits(r)
    ensures n < 100 ==> |r| == 2 && DigitsValue(r) == n
  {
    if n < 10 then
      var r := ['0', DigitChar(n)];
      assert r[..1] == ['0'] && ['0'][..0] == [];
      assert DigitsValue(r[..1]) == 0;
      r
    else
      var r := NatToString(n);
      if n < 100 then
        assert NatToString(n / 10) == [DigitChar(n / 10)];
        NatToStringValue(n);
        r
      else r
  }

  /** The time picker's text: "%02d:%02d" of the hour and minute. */
  function FormatTime(hour: nat, minute: nat): string {
    Pad2(hour) + ":" + Pad2(minute)
  }

  /** A picked time is written as five characters, two digits, a colon and two
      digits, and reading the digits back gives the hour and minute picked. */
  lemma FormatTimeReadsBack(hour: nat, minute: nat)
    requires hour < 24 && minute < 60
    ensures var t := FormatTime(hour, minute);
      && |t| == 5 && t[2] == ':'
      && AllDigits(t[..2]) && DigitsValue(t[..2]) == hour
      && AllDigits(t[3..]) && DigitsValue(t[3..]) == minute
  {
    var t := FormatTime(hour, minute);
    assert t[..2] == Pad2(hour);
    assert t[3..] == Pad2(minute);
  }
}
