/** Calendar dates and their `YYYY-MM-DD` text form. */
module Dates {
  import opened Text

  datatype Date = Date(year: nat, month: nat, day: nat)

  /** Month and day in the ranges `datetime.date` allows. */
  predicate ValidDate(d: Date) {
    1 <= d.year && 1 <= d.month <= 12 && 1 <= d.day <= 31
  }

  /** `f"{year}-{month:02d}-{day:02d}"`, which is also what
      `strftime('%Y-%m-%d')` gives for years of four digits. */
  function IsoDate(d: Date): string {
    NatToString(d.year) + "-" + Pad2(d.month) + "-" + Pad2(d.day)
  }

  /** For a four-digit year the key is ten characters, dashes at positions 4
      and 7 and digits everywhere else. */
  lemma IsoDateShape(d: Date)
    requires ValidDate(d) && 1000 <= d.year <= 9999
    ensures |IsoDate(d)| == 10 && IsoDate(d)[4] == '-' && IsoDate(d)[7] == '-'
    ensures forall i :: 0 <= i < 10 && i != 4 && i != 7 ==> IsAsciiDigit(IsoDate(d)[i])
  {
    var y := NatToString(d.year);
    assert |NatToString(d.year / 10)| == 3 by {
      assert |NatToString(d.year / 100)| == 2 by {
        assert |NatToString(d.year / 1000)| == 1;
      }
    }
  }

  /** Distinct dates have distinct keys, so a key names one calendar day. */
  lemma {:induction false} IsoDateInjective(a: Date, b: Date)
    requires ValidDate(a) && ValidDate(b)
    requires IsoDate(a) == IsoDate(b)
    ensures a == b
  {
    var s := IsoDate(a);
    var n := |s|;
    var ya, yb := NatToString(a.year), NatToString(b.year);
    assert s[n - 2..] == Pad2(a.day) && s[n - 2..] == Pad2(b.day);
    assert s[n - 5..n - 3] == Pad2(a.month) && s[n - 5..n - 3] == Pad2(b.month);
    assert s[..n - 6] == ya && s[..n - 6] == yb;
    Pad2Injective(a.day, b.day);
    Pad2Injective(a.month, b.month);
    NatToStringInjective(a.year, b.year);
  }
}
