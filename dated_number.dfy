/** The claim and policy numbers the front end generates when the form leaves
    the number empty: a fixed prefix, the four-or-more digit year of `new Date()`,
    the month (1 to 12) padded to two digits and `Math.floor(Math.random() * 1000)`
    padded to three digits. The clock and the random source are parameters. */
module DatedNumber {
  import opened Common

  /** What `new Date()` and `Math.random()` contribute: `getFullYear()`,
      `getMonth()` (0 for January) and the scaled random draw. */
  datatype Stamp = Stamp(year: nat, month: nat, random: nat)

  /** What the environment guarantees: `getMonth()` is below 12 and
      `Math.floor(Math.random() * 1000)` is below 1000. */
  predicate ValidStamp(d: Stamp) {
    d.month < 12 && d.random < 1000
  }

  function MonthField(d: Stamp): (m: string)
    requires ValidStamp(d)
    ensures |m| == 2 && AllDigits(m) && DigitsValue(m) == d.month + 1
  {
    NatToStringLength(d.month + 1, 2);
    PaddedValue(d.month + 1, 2);
    PadStart(NatToString(d.month + 1), 2, '0')
  }

  function RandomField(d: Stamp): (r: string)
    requires ValidStamp(d)
    ensures |r| == 3 && AllDigits(r) && DigitsValue(r) == d.random
  {
    assert Pow10(3) == 1000;
    NatToStringLength(d.random, 3);
    PaddedValue(d.random, 3);
    PadStart(NatToString(d.random), 3, '0')
  }

  /** `${prefix}${year}${month}${random}` as both generators build it. */
  function Format(prefix: string, d: Stamp): (s: string)
    requires ValidStamp(d)
    ensures StartsWith(s, prefix)
    ensures |s| == |prefix| + |NatToString(d.year)| + 5
  {
    prefix + (NatToString(d.year) + MonthField(d) + RandomField(d))
  }

  /** Reads a generated number back: the last three characters are the random
      part, the two before them the month, and what lies between the prefix and
      the month is the year. */
  function Parse(prefix: string, s: string): (r: Option<Stamp>)
    ensures r.Some? ==> StartsWith(s, prefix) && ValidStamp(r.value)
  {
    if |s| < |prefix| + 6 || s[..|prefix|] != prefix then None
    else ParseFields(s[|prefix|..|s| - 5], s[|s| - 5..|s| - 3], s[|s| - 3..])
  }

  /** The year, month and random fields, once the number is cut into them. */
  function ParseFields(y: string, m: string, n: string): (r: Option<Stamp>)
    requires |n| == 3
    ensures r.Some? ==> ValidStamp(r.value)
  {
    if !(AllDigits(y) && AllDigits(m) && AllDigits(n)) then None
    else
      var month := DigitsValue(m);
      if month < 1 || 12 < month then None
      else
        DigitsValueBound(n);
        assert Pow10(3) == 1000;
        Some(Stamp(DigitsValue(y), month - 1, DigitsValue(n)))
  }

  /** Year, month and random draw are recoverable from the generated number. */
  lemma ParseFormat(prefix: string, d: Stamp)
    requires ValidStamp(d)
    ensures Parse(prefix, Format(prefix, d)) == Some(d)
  {
    var y, m, n := NatToString(d.year), MonthField(d), RandomField(d);
    assert ParseFields(y, m, n) == Some(d);
    ParseCut(prefix, y, m, n);
  }

  /** Parsing a number assembled from three fields parses those fields. */
  lemma ParseCut(prefix: string, y: string, m: string, n: string)
    requires 1 <= |y| && |m| == 2 && |n| == 3
    ensures Parse(prefix, prefix + (y + m + n)) == ParseFields(y, m, n)
  {
    CutFields(prefix, y, m, n);
  }

  lemma CutFields(prefix: string, y: string, m: string, n: string)
    requires |m| == 2 && |n| == 3
    ensures var s := prefix + (y + m + n);
      && s[..|prefix|] == prefix && s[|prefix|..|s| - 5] == y
      && s[|s| - 5..|s| - 3] == m && s[|s| - 3..] == n
  {
    var rest := y + m + n;
    var s := prefix + rest;
    assert s[|prefix|..] == rest;
    assert s[|prefix|..|s| - 5] == rest[..|y|];
    assert s[|s| - 5..|s| - 3] == rest[|y|..|y| + 2];
    assert s[|s| - 3..] == rest[|y| + 2..];
  }

  /** Two different stamps never produce the same number (for one prefix). */
  lemma FormatInjective(prefix: string, d1: Stamp, d2: Stamp)
    requires ValidStamp(d1) && ValidStamp(d2)
    requires Format(prefix, d1) == Format(prefix, d2)
    ensures d1 == d2
  {
    ParseFormat(prefix, d1);
    ParseFormat(prefix, d2);
  }

  /** With a four-digit year the number is the prefix plus nine characters. */
  lemma FormatLength(prefix: string, d: Stamp)
    requires ValidStamp(d) && 1000 <= d.year <= 9999
    ensures |Format(prefix, d)| == |prefix| + 9
  {
    assert Pow10(3) == 1000 && Pow10(4) == 10000;
    NatToStringLength(d.year, 4);
  }
}
