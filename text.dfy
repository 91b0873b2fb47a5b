/** The text of the ranges column: `%d` line numbers, `L` or `L1-L2`, joined with commas. */
module Text {
  import opened Ranges

  function DigitChar(d: nat): (c: char)
    requires d < 10
    ensures '0' <= c <= '9'
  {
    (48 + d) as char
  }

  /** The decimal digits of `n`, most significant first and without leading zeros. */
  function Digits(n: nat): (s: string)
    ensures |s| >= 1
    ensures forall i :: 0 <= i < |s| ==> '0' <= s[i] <= '9'
    ensures n >= 10 ==> s[0] != '0'
  {
    if n < 10 then [DigitChar(n)] else Digits(n / 10) + [DigitChar(n % 10)]
  }

  predicate AllDigits(s: string) {
    forall i :: 0 <= i < |s| ==> '0' <= s[i] <= '9'
  }

  /** The number a string of decimal digits stands for. */
  function ValueOf(s: string): nat
    requires AllDigits(s)
  {
    if s == [] then 0 else ValueOf(s[..|s| - 1]) * 10 + (s[|s| - 1] as int - 48)
  }

  /** Reading the printed digits back gives the number again. */
  lemma {:induction false} DigitsRoundTrip(n: nat)
    ensures ValueOf(Digits(n)) == n
  {
    if n >= 10 {
      var s := Digits(n);
      assert s[..|s| - 1] == Digits(n / 10);
      DigitsRoundTrip(n / 10);
    }
  }

  /** `%d` of an integer. */
  function Decimal(n: int): (s: string)
    ensures s != [] && ',' !in s
  {
    if n < 0 then "-" + Digits(-n) else Digits(n)
  }

  /** The text `formatBlock` produces. */
  function Render(r: LineRange): (s: string)
    ensures s != [] && ',' !in s
  {
    match r
    case Line(l) => Decimal(l)
    case Lines(a, b) => Decimal(a) + "-" + Decimal(b)
  }

  /** `strings.Join(parts, ",")`. */
  function Join(parts: seq<string>): string {
    if parts == [] then "" else if |parts| == 1 then parts[0] else parts[0] + "," + Join(parts[1..])
  }

  /** The ranges column of a report line. */
  function RenderAll(rs: seq<LineRange>): string {
    Join(seq(|rs|, i requires 0 <= i < |rs| => Render(rs[i])))
  }

  /** Number of commas in `s`. */
  function Commas(s: string): nat {
    multiset(s)[',']
  }

  lemma {:induction false} JoinCommas(parts: seq<string>)
    requires parts != [] && forall i :: 0 <= i < |parts| ==> parts[i] != [] && ',' !in parts[i]
    ensures Join(parts) != [] && Commas(Join(parts)) == |parts| - 1
  {
    if |parts| > 1 {
      JoinCommas(parts[1..]);
      assert multiset(parts[0] + "," + Join(parts[1..])) == multiset(parts[0]) + multiset(",") + multiset(Join(parts[1..]));
    }
  }

  /** The ranges column is empty exactly when there is no range, and otherwise holds one comma
      fewer than ranges, so that each range can be told apart. */
  lemma RenderAllShape(rs: seq<LineRange>)
    ensures RenderAll(rs) == "" <==> rs == []
    ensures rs != [] ==> Commas(RenderAll(rs)) == |rs| - 1
  {
    if rs != [] {
      JoinCommas(seq(|rs|, i requires 0 <= i < |rs| => Render(rs[i])));
    }
  }
}
