/** The text fields of the index file of apue.2e/db/db.c: decimal numbers, blank-padded fields, index records.

  Strings stand for C strings without their terminator, or for runs of file bytes.
 */
module DbText {
  import opened Wrappers

  const PTR_SZ := 6
  const IDXLEN_SZ := 4
  const PTR_MAX := 999999
  const IDXLEN_MIN := 6
  const IDXLEN_MAX := 1024
  const DATLEN_MIN := 2
  const DATLEN_MAX := 1024
  const SEP := ':'
  const SPACE := ' '
  const NEWLINE := '\n'

  // ----- the C library's conversions

  predicate IsDigitChar(c: char) { '0' <= c <= '9' }

  predicate AllDigits(s: string) {
    forall i :: 0 <= i < |s| ==> IsDigitChar(s[i])
  }

  function DigitChar(d: nat): (c: char)
    requires d < 10
    ensures IsDigitChar(c) && c as int == d + 48
  {
    (d + 48) as char
  }

  /** The decimal numeral of a number, as printed by %ld. */
  function Dec(n: nat): (s: string)
    ensures |s| >= 1 && AllDigits(s)
  {
    if n < 10 then [DigitChar(n)] else Dec(n / 10) + [DigitChar(n % 10)]
  }

  /** The value of a run of digits. */
  function Num(s: string): nat
    requires AllDigits(s)
  {
    if s == [] then 0 else 10 * Num(s[..|s| - 1]) + (s[|s| - 1] as int - 48)
  }

  function Spaces(n: nat): (s: string)
    ensures |s| == n
  {
    seq(n, _ => SPACE)
  }

  /** A number right-justified in a field, as printed by %*ld. */
  function Pad(width: nat, n: nat): string {
    if |Dec(n)| < width then Spaces(width - |Dec(n)|) + Dec(n) else Dec(n)
  }

  function SkipBlanks(s: string): string {
    if s != [] && s[0] in {' ', '\t', '\n', '\r'} then SkipBlanks(s[1..]) else s
  }

  function LeadingDigits(s: string): (d: string)
    ensures AllDigits(d)
  {
    if s != [] && IsDigitChar(s[0]) then [s[0]] + LeadingDigits(s[1..]) else []
  }

  /** atol: blanks, an optional sign, digits up to the first other character. */
  function Atol(s: string): int {
    var t := SkipBlanks(s);
    if t != [] && t[0] == '-' then -(Num(LeadingDigits(t[1..])) as int)
    else if t != [] && t[0] == '+' then Num(LeadingDigits(t[1..]))
    else Num(LeadingDigits(t))
  }

  /** strchr: the first position of a character, or the length when there is none. */
  function IndexOf(s: string, c: char): (p: nat)
    ensures p <= |s| && c !in s[..p] && (p < |s| ==> s[p] == c)
  {
    if s == [] || s[0] == c then 0 else 1 + IndexOf(s[1..], c)
  }

  function Pow10(k: nat): nat { if k == 0 then 1 else 10 * Pow10(k - 1) }

  lemma {:induction false} NumDec(n: nat)
    ensures Num(Dec(n)) == n
  {
    if n >= 10 {
      NumDec(n / 10);
      assert Dec(n)[..|Dec(n)| - 1] == Dec(n / 10);
    }
  }

  lemma {:induction false} LeadingDigitsAll(s: string)
    requires AllDigits(s)
    ensures LeadingDigits(s) == s
  {
    if s != [] {
      LeadingDigitsAll(s[1..]);
    }
  }

  lemma {:induction false} SkipSpaces(n: nat, s: string)
    requires s != [] && IsDigitChar(s[0])
    ensures SkipBlanks(Spaces(n) + s) == s
  {
    if n == 0 {
      assert Spaces(0) + s == s;
    } else {
      assert (Spaces(n) + s)[1..] == Spaces(n - 1) + s;
      SkipSpaces(n - 1, s);
    }
  }

  lemma AtolDec(n: nat)
    ensures Atol(Dec(n)) == n
  {
    NumDec(n);
    LeadingDigitsAll(Dec(n));
    assert IsDigitChar(Dec(n)[0]);
  }

  /** Reading a padded field gives back the number, whatever the width. */
  lemma AtolPad(width: nat, n: nat)
    ensures Atol(Pad(width, n)) == n
  {
    AtolDec(n);
    if |Dec(n)| < width {
      assert IsDigitChar(Dec(n)[0]);
      SkipSpaces(width - |Dec(n)|, Dec(n));
      LeadingDigitsAll(Dec(n));
    }
  }

  /** A numeral has at most k digits exactly when the number is below 10^k. */
  lemma {:induction false} DecWidth(n: nat, k: nat)
    requires k >= 1
    ensures |Dec(n)| <= k <==> n < Pow10(k)
  {
    if n >= 10 {
      if k == 1 {
        assert Pow10(1) == 10;
      } else {
        DecWidth(n / 10, k - 1);
      }
    } else {
      PowPositive(k - 1);
    }
  }

  lemma {:induction false} PowPositive(k: nat)
    ensures Pow10(k) >= 1
  {
    if k > 0 {
      PowPositive(k - 1);
    }
  }

  /** The pointer field is exactly six characters wide for every offset up to PTR_MAX, and for no other. */
  lemma PtrWidth(n: nat)
    ensures |Pad(PTR_SZ, n)| == PTR_SZ <==> n <= PTR_MAX
  {
    DecWidth(n, 6);
    assert Pow10(3) == 1000;
    assert Pow10(6) == 1000000;
  }

  lemma LenWidth(n: nat)
    requires n <= IDXLEN_MAX
    ensures |Pad(IDXLEN_SZ, n)| == IDXLEN_SZ
  {
    DecWidth(n, 4);
    assert Pow10(2) == 100;
    assert Pow10(4) == 10000;
  }

  // ----- index records

  /** An index record: the chain pointer, the key, and the place and length of the data record. */
  datatype Rec = Rec(ptr: nat, key: string, datoff: nat, datlen: nat)

  /** The part of an index record after the two fixed-width fields. */
  function RecBody(r: Rec): string {
    r.key + [SEP] + Dec(r.datoff) + [SEP] + Dec(r.datlen) + [NEWLINE]
  }

  function RecText(r: Rec): string {
    Pad(PTR_SZ, r.ptr) + Pad(IDXLEN_SZ, |RecBody(r)|) + RecBody(r)
  }

  predicate GoodKey(key: string) {
    key != [] && SEP !in key
  }

  /** What the limits of the program allow a stored record to be. */
  predicate GoodRec(r: Rec) {
    && r.ptr <= PTR_MAX && GoodKey(r.key) && DATLEN_MIN <= r.datlen <= DATLEN_MAX
    && |RecBody(r)| <= IDXLEN_MAX
  }

  datatype Fields = Fields(key: string, datoff: nat, datlen: nat)

  /** What reading an index record makes of a line without its newline; None where it dumps core. */
  function ParseLine(line: string): Option<Fields> {
    var p1 := IndexOf(line, SEP);
    if p1 == |line| then None
    else
      var tail := line[p1 + 1..];
      var p2 := IndexOf(tail, SEP);
      if p2 == |tail| || SEP in tail[p2 + 1..] then None
      else
        var datoff := Atol(tail[..p2]);
        var datlen := Atol(tail[p2 + 1..]);
        if datoff < 0 || datlen <= 0 || datlen > DATLEN_MAX then None
        else Some(Fields(line[..p1], datoff, datlen))
  }

  /** The bytes after the length field. */
  function ParseBody(buf: string): Option<Fields>
    requires buf != []
  {
    if buf[|buf| - 1] != NEWLINE then None else ParseLine(buf[..|buf| - 1])
  }

  lemma {:induction false} IndexOfFirst(a: string, c: char, b: string)
    requires c !in a
    ensures IndexOf(a + [c] + b, c) == |a|
  {
    if a == [] {
      assert (a + [c] + b)[0] == c;
    } else {
      assert (a + [c] + b)[1..] == a[1..] + [c] + b;
      assert (a + [c] + b)[0] == a[0] && a[0] in a;
      IndexOfFirst(a[1..], c, b);
    }
  }

  /** Cutting a line at its two separators gives back the three parts. */
  lemma CutLine(key: string, a: string, b: string)
    requires SEP !in key && SEP !in a && SEP !in b
    ensures var line := key + [SEP] + a + [SEP] + b;
            var tail := a + [SEP] + b;
            && IndexOf(line, SEP) == |key| && line[..|key|] == key && line[|key| + 1..] == tail
            && IndexOf(tail, SEP) == |a| && tail[..|a|] == a && tail[|a| + 1..] == b
  {
    assert key + [SEP] + a + [SEP] + b == key + [SEP] + (a + [SEP] + b);
    IndexOfFirst(key, SEP, a + [SEP] + b);
    IndexOfFirst(a, SEP, b);
  }

  /** Parsing a record body inverts writing it. */
  lemma ParseInverts(r: Rec)
    requires GoodKey(r.key) && 1 <= r.datlen <= DATLEN_MAX
    ensures ParseBody(RecBody(r)) == Some(Fields(r.key, r.datoff, r.datlen))
  {
    var a, b := Dec(r.datoff), Dec(r.datlen);
    AtolDec(r.datoff);
    AtolDec(r.datlen);
    CutLine(r.key, a, b);
    var tail := a + [SEP] + b;
    var line := r.key + [SEP] + a + [SEP] + b;
    assert RecBody(r)[..|RecBody(r)| - 1] == line;
  }

  /** A good record occupies its body and ten more bytes, and all three parts are where reading expects them. */
  lemma RecParts(r: Rec)
    requires GoodRec(r)
    ensures |RecText(r)| == PTR_SZ + IDXLEN_SZ + |RecBody(r)|
    ensures RecText(r)[..PTR_SZ] == Pad(PTR_SZ, r.ptr)
    ensures RecText(r)[PTR_SZ..PTR_SZ + IDXLEN_SZ] == Pad(IDXLEN_SZ, |RecBody(r)|)
    ensures RecText(r)[PTR_SZ + IDXLEN_SZ..] == RecBody(r)
    ensures IDXLEN_MIN <= |RecBody(r)|
  {
    PtrWidth(r.ptr);
    LenWidth(|RecBody(r)|);
  }

  /** Reading an index record inverts writing it: all five numbers and strings come back. */
  lemma ReadsBack(r: Rec)
    requires GoodRec(r)
    ensures Atol(RecText(r)[..PTR_SZ]) == r.ptr
    ensures Atol(RecText(r)[PTR_SZ..PTR_SZ + IDXLEN_SZ]) == |RecBody(r)| == |RecText(r)| - PTR_SZ - IDXLEN_SZ
    ensures ParseBody(RecText(r)[PTR_SZ + IDXLEN_SZ..]) == Some(Fields(r.key, r.datoff, r.datlen))
  {
    RecParts(r);
    AtolPad(PTR_SZ, r.ptr);
    AtolPad(IDXLEN_SZ, |RecBody(r)|);
    ParseInverts(r);
  }

  /** The record of the key Alpha whose data take the first six bytes of the data file, with no record behind it, as it
    is in the index file. */
  lemma RecordSpelled()
    ensures RecText(Rec(0, "Alpha", 0, 6)) == "     0  10Alpha:0:6\n"
  {
    hide Dec, Pad;
    SomeNumerals();
    assert RecBody(Rec(0, "Alpha", 0, 6)) == "Alpha:0:6\n";
    assert |RecBody(Rec(0, "Alpha", 0, 6))| == 10;
  }

  lemma SomeNumerals()
    ensures Dec(0) == "0" && Dec(6) == "6"
    ensures Pad(PTR_SZ, 0) == "     0" && Pad(IDXLEN_SZ, 10) == "  10"
  {
    assert Dec(1) == "1" && Dec(10) == "10";
  }

  function Blank(s: string): (b: string)
    ensures |b| == |s|
  {
    Spaces(|s|)
  }

  predicate AllBlank(s: string) {
    forall i :: 0 <= i < |s| ==> s[i] == SPACE
  }
}
