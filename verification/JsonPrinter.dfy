/** The printer of html/njs/json2.js: quoting strings, and printing value trees with a shared, mutable gap. */
module JsonPrinter {
  import opened Wrappers
  import opened JsonTables
  import opened JsonGrammar

  /** A JavaScript value as the printer sees it. A finite number is given by the numeral it prints as; Undefined
      stands for everything the printer leaves out (undefined and functions). Strings are 16-bit code units. */
  datatype JsValue =
    | Undefined
    | JsNull
    | JsBool(b: bool)
    | JsNumber(numeral: Numeral)
    | NonFinite
    | JsString(units: Text)
    | JsArray(items: seq<JsValue>)
    | JsObject(members: seq<JsMember>)

  datatype JsMember = JsMember(key: Text, value: JsValue)

  // ----- quoting

  predicate IsUnit(c: int) { 0 <= c < 0x10000 }

  predicate AreUnits(s: Text) {
    forall i :: 0 <= i < |s| ==> IsUnit(s[i])
  }

  /** The characters that the printer replaces. */
  predicate Escapable(c: int) {
    || c == 92 || c == 34 || 0 <= c <= 0x1f || 0x7f <= c <= 0x9f || c == 0xad || 0x600 <= c <= 0x604 || c == 0x70f
    || c == 0x17b4 || c == 0x17b5 || 0x200c <= c <= 0x200f || 0x2028 <= c <= 0x202f || 0x2060 <= c <= 0x206f
    || c == 0xfeff || 0xfff0 <= c <= 0xffff
  }

  function HexDigit(d: int): (c: int)
    requires 0 <= d < 16
    ensures IsHex(c)
  {
    if d < 10 then 48 + d else 87 + d
  }

  /** A number in base 16, as toString(16) writes it. */
  function Hex(n: nat): Text {
    if n < 16 then [HexDigit(n)] else Hex(n / 16) + [HexDigit(n % 16)]
  }

  /** The last four characters. */
  function SliceLast4(t: Text): Text {
    if |t| <= 4 then t else t[|t| - 4..]
  }

  /** The replacement of one escapable character. */
  function EscapeOf(c: int): Text
    requires IsUnit(c)
  {
    if c == 8 then [92, 98]
    else if c == 9 then [92, 116]
    else if c == 10 then [92, 110]
    else if c == 12 then [92, 102]
    else if c == 13 then [92, 114]
    else if c == 34 then [92, 34]
    else if c == 92 then [92, 92]
    else [92, 117] + SliceLast4([48, 48, 48, 48] + Hex(c))
  }

  /** The string with every escapable character replaced. */
  function Replaced(s: Text): Text
    requires AreUnits(s)
  {
    if s == [] then []
    else (if Escapable(s[0]) then EscapeOf(s[0]) else [s[0]]) + Replaced(s[1..])
  }

  function Quote(s: Text): Text
    requires AreUnits(s)
  {
    if exists i :: 0 <= i < |s| && Escapable(s[i]) then [34] + Replaced(s) + [34] else [34] + s + [34]
  }

  lemma {:induction false} ReplacedPlain(s: Text)
    requires AreUnits(s) && forall i :: 0 <= i < |s| ==> !Escapable(s[i])
    ensures Replaced(s) == s
    decreases |s|
  {
    if s != [] {
      ReplacedPlain(s[1..]);
    }
  }

  /** The test for an escapable character only saves work. */
  lemma QuoteIsReplaced(s: Text)
    requires AreUnits(s)
    ensures Quote(s) == StringText(Replaced(s))
  {
    if !(exists i :: 0 <= i < |s| && Escapable(s[i])) {
      ReplacedPlain(s);
    }
  }

  // ----- what a quoted text looks like

  const DIGITS: Text := [48, 49, 50, 51, 52, 53, 54, 55, 56, 57, 97, 98, 99, 100, 101, 102]

  /** Characters that are neither control characters nor others that are not shown or break programs. */
  predicate Shown(c: int) {
    && 0x20 <= c < 0xfff0 && !(0x7f <= c <= 0x9f) && c != 0xad && !(0x600 <= c <= 0x604) && c != 0x70f
    && c != 0x17b4 && c != 0x17b5 && !(0x200c <= c <= 0x200f) && !(0x2028 <= c <= 0x202f)
    && !(0x2060 <= c <= 0x206f) && c != 0xfeff
  }

  /** The escape of a character: the short form if there is one, or else four lower-case digits in base 16. */
  lemma EscapeSpelled(c: int)
    requires IsUnit(c)
    ensures EscapeOf(c) ==
      if c == 8 then [92, 98] else if c == 9 then [92, 116] else if c == 10 then [92, 110]
      else if c == 12 then [92, 102] else if c == 13 then [92, 114]
      else if c == 34 then [92, 34] else if c == 92 then [92, 92]
      else [92, 117, DIGITS[c / 4096], DIGITS[c / 256 % 16], DIGITS[c / 16 % 16], DIGITS[c % 16]]
  {
    hide Hex, SliceLast4;
    SliceIsNibbles(c);
    assert forall d :: 0 <= d < 16 ==> HexDigit(d) == DIGITS[d];
  }

  /** Only shown characters are in a quoted text; a quote or a backslash only as part of an escape, as the text is a
    string body. */
  lemma {:induction false} AllShown(s: Text)
    requires AreUnits(s)
    ensures forall i :: 0 <= i < |Replaced(s)| ==> Shown(Replaced(s)[i])
    decreases |s|
  {
    hide EscapeOf, Escapable, Shown;
    if s != [] {
      AllShown(s[1..]);
      EscapeShown(s[0]);
    }
  }

  lemma EscapeShown(c: int)
    requires IsUnit(c)
    ensures forall i :: 0 <= i < |EscapeOf(c)| ==> Shown(EscapeOf(c)[i])
    ensures !Escapable(c) <==> Shown(c) && c != 34 && c != 92
  {
    hide EscapeOf;
    EscapeSpelled(c);
  }

  /** Shown characters other than the quote and the backslash are left as they are. */
  lemma OthersAsTheyAre(s: Text)
    requires AreUnits(s) && forall i :: 0 <= i < |s| ==> Shown(s[i]) && s[i] != 34 && s[i] != 92
    ensures Quote(s) == [34] + s + [34]
  {
    forall i | 0 <= i < |s|
      ensures !Escapable(s[i])
    {
      EscapeShown(s[i]);
    }
  }

  // ----- reading a string body back

  function HexValue(c: int): int
    requires IsHex(c)
  {
    if IsDigit(c) then c - 48 else if c >= 97 then c - 87 else c - 55
  }

  function Hex4(t: Text): int
    requires |t| == 4 && IsHex(t[0]) && IsHex(t[1]) && IsHex(t[2]) && IsHex(t[3])
  {
    ((HexValue(t[0]) * 16 + HexValue(t[1])) * 16 + HexValue(t[2])) * 16 + HexValue(t[3])
  }

  /** The character a two-character escape stands for. */
  function Unescaped(c: int): int {
    if c == 98 then 8 else if c == 116 then 9 else if c == 110 then 10 else if c == 102 then 12
    else if c == 114 then 13 else c
  }

  function Unquoted(b: Text): Text
    requires IsBody(b, Either)
    decreases |b|
  {
    if b == [] then []
    else if b[0] != 92 then [b[0]] + Unquoted(b[1..])
    else if b[1] == 117 then [Hex4(b[2..6])] + Unquoted(b[6..])
    else [Unescaped(b[1])] + Unquoted(b[2..])
  }

  lemma HexBack(d: int)
    requires 0 <= d < 16
    ensures HexValue(HexDigit(d)) == d
  {
  }

  /** The four base-16 digits of a code unit, with leading zeros. */
  function Nibbles(c: int): Text
    requires IsUnit(c)
  {
    [HexDigit(c / 4096), HexDigit(c / 256 % 16), HexDigit(c / 16 % 16), HexDigit(c % 16)]
  }

  lemma HexOne(n: nat)
    requires n < 16
    ensures Hex(n) == [HexDigit(n)]
  {
  }

  lemma HexMore(n: nat)
    requires n >= 16
    ensures Hex(n) == Hex(n / 16) + [HexDigit(n % 16)]
  {
  }

  /** The last four of at most eight characters, the first four of which are zeros. */
  lemma SliceEnds(t: Text)
    requires 1 <= |t| <= 4
    ensures SliceLast4([48, 48, 48, 48] + t) == [48, 48, 48, 48][|t|..] + t
  {
    var z := [48, 48, 48, 48];
    assert (z + t)[|t|..] == z[|t|..] + t;
  }

  lemma Halves(c: int)
    requires IsUnit(c)
    ensures c / 16 / 16 == c / 256 && c / 16 / 16 / 16 == c / 4096
    ensures c < 16 ==> c % 16 == c && c / 16 % 16 == 0
    ensures c < 256 ==> c / 16 % 16 == c / 16 && c / 256 % 16 == 0
    ensures c < 4096 ==> c / 256 % 16 == c / 256 && c / 4096 == 0
  {
  }

  /** The digits of a code unit without leading zeros. */
  lemma HexIs(c: int)
    requires IsUnit(c)
    ensures Hex(c) == if c < 16 then Nibbles(c)[3..] else if c < 256 then Nibbles(c)[2..]
                      else if c < 4096 then Nibbles(c)[1..] else Nibbles(c)
  {
    hide Hex, HexDigit;
    Halves(c);
    if c < 16 {
      HexOne(c);
    } else if c < 256 {
      HexMore(c);
      HexOne(c / 16);
    } else if c < 4096 {
      HexMore(c);
      HexMore(c / 16);
      HexOne(c / 16 / 16);
    } else {
      HexMore(c);
      HexMore(c / 16);
      HexMore(c / 16 / 16);
      HexOne(c / 16 / 16 / 16);
    }
  }

  lemma ZeroNibbles(c: int)
    requires IsUnit(c)
    ensures c < 16 ==> Nibbles(c)[..3] == [48, 48, 48]
    ensures c < 256 ==> Nibbles(c)[..2] == [48, 48]
    ensures c < 4096 ==> Nibbles(c)[..1] == [48]
  {
    Halves(c);
  }

  lemma SliceIsNibbles(c: int)
    requires IsUnit(c)
    ensures SliceLast4([48, 48, 48, 48] + Hex(c)) == Nibbles(c)
  {
    hide Hex, SliceLast4;
    var n, t := Nibbles(c), Hex(c);
    hide Nibbles;
    HexIs(c);
    ZeroNibbles(c);
    SliceEnds(t);
    assert n == n[..4 - |t|] + n[4 - |t|..];
  }

  lemma Positional(c: int)
    requires IsUnit(c)
    ensures c == ((c / 4096 * 16 + c / 256 % 16) * 16 + c / 16 % 16) * 16 + c % 16
  {
    var a, b, d := c / 16, c / 256, c / 4096;
    assert c == 16 * a + c % 16;
    assert b == a / 16 && a == 16 * b + a % 16;
    assert d == b / 16 && b == 16 * d + b % 16;
  }

  /** The four-digit form of a code unit is four hexadecimal digits with its value. */
  lemma FourDigits(c: int)
    requires IsUnit(c)
    ensures var t := SliceLast4([48, 48, 48, 48] + Hex(c));
            |t| == 4 && IsHex(t[0]) && IsHex(t[1]) && IsHex(t[2]) && IsHex(t[3]) && Hex4(t) == c
  {
    hide HexDigit, HexValue, Hex, SliceLast4;
    SliceIsNibbles(c);
    Positional(c);
    HexBack(c / 4096);
    HexBack(c / 256 % 16);
    HexBack(c / 16 % 16);
    HexBack(c % 16);
  }

  /** A replaced string is a well-formed string body of either language. */
  lemma {:induction false} ReplacedIsBody(s: Text, d: Dialect)
    requires AreUnits(s)
    ensures IsBody(Replaced(s), d)
    decreases |s|
  {
    if s != [] {
      ReplacedIsBody(s[1..], d);
      if Escapable(s[0]) {
        EscapeIsBody(s[0], Replaced(s[1..]), d);
      }
    }
  }

  lemma EscapeIsBody(c: int, rest: Text, d: Dialect)
    requires IsUnit(c) && Escapable(c) && IsBody(rest, d)
    ensures IsBody(EscapeOf(c) + rest, d)
  {
    hide Hex, HexDigit, SliceLast4;
    var t := EscapeOf(c) + rest;
    if c in {8, 9, 10, 12, 13, 34, 92} {
      assert t[0] == 92 && t[1] == EscapeOf(c)[1] && t[2..] == rest;
    } else {
      EscapeParts(c, rest);
    }
  }

  /** The six characters of a numeric escape. */
  lemma EscapeParts(c: int, rest: Text)
    requires IsUnit(c) && c !in {8, 9, 10, 12, 13, 34, 92}
    ensures var t, h := EscapeOf(c) + rest, SliceLast4([48, 48, 48, 48] + Hex(c));
            |h| == 4 && |t| >= 6 && t[0] == 92 && t[1] == 117 && t[2..6] == h && t[6..] == rest
            && IsHex(t[2]) && IsHex(t[3]) && IsHex(t[4]) && IsHex(t[5]) && Hex4(t[2..6]) == c
  {
    hide Hex, HexDigit, SliceLast4, HexValue;
    FourDigits(c);
    var t, h := EscapeOf(c) + rest, SliceLast4([48, 48, 48, 48] + Hex(c));
    assert t == [92, 117] + h + rest;
    assert t[2..6] == h && t[6..] == rest;
    assert t[2] == h[0] && t[3] == h[1] && t[4] == h[2] && t[5] == h[3];
  }

  /** Reading a replaced string back gives the string. */
  lemma {:induction false} UnquoteQuote(s: Text)
    requires AreUnits(s)
    ensures IsBody(Replaced(s), Either) && Unquoted(Replaced(s)) == s
    decreases |s|
  {
    if s != [] {
      UnquoteQuote(s[1..]);
      if Escapable(s[0]) {
        EscapeFirst(s[0], Replaced(s[1..]));
      }
      assert s == [s[0]] + s[1..];
    }
  }

  lemma EscapeFirst(c: int, rest: Text)
    requires IsUnit(c) && Escapable(c) && IsBody(rest, Either)
    ensures IsBody(EscapeOf(c) + rest, Either) && Unquoted(EscapeOf(c) + rest) == [c] + Unquoted(rest)
  {
    hide Hex, HexDigit, SliceLast4, HexValue, Hex4;
    var t := EscapeOf(c) + rest;
    if c in {8, 9, 10, 12, 13, 34, 92} {
      assert t[0] == 92 && t[1] == EscapeOf(c)[1] && t[2..] == rest;
    } else {
      EscapeParts(c, rest);
    }
  }

  // ----- what is printed: the normalised value

  datatype Plain =
    | PNull
    | PBool(b: bool)
    | PNumber(numeral: Numeral)
    | PString(units: Text)
    | PArray(items: seq<Plain>)
    | PObject(fields: seq<Field>)

  datatype Field = Field(key: Text, value: Plain)

  /** Numbers that are not finite become null, members that cannot be printed are dropped, and array elements that
      cannot be printed become null. */
  function Normal(v: JsValue): Plain
    decreases v, 1
  {
    match v
    case Undefined => PNull
    case JsNull => PNull
    case JsBool(b) => PBool(b)
    case JsNumber(n) => PNumber(n)
    case NonFinite => PNull
    case JsString(s) => PString(s)
    case JsArray(items) => PArray(NormalItems(items))
    case JsObject(members) => PObject(NormalMembers(members))
  }

  function NormalItems(items: seq<JsValue>): (r: seq<Plain>)
    ensures |r| == |items|
    decreases items, 0
  {
    if items == [] then [] else NormalItems(items[..|items| - 1]) + [Normal(items[|items| - 1])]
  }

  function NormalMembers(members: seq<JsMember>): seq<Field>
    decreases members, 0
  {
    if members == [] then []
    else
      var last := members[|members| - 1];
      NormalMembers(members[..|members| - 1]) + if last.value.Undefined? then []
          else [Field(last.key, Normal(last.value))]
  }

  /** A finite number prints with digits after its point, and without an exponent after a bare zero. */
  predicate NumeralOk(n: Numeral) {
    IsNumeral(n, Program) && IsNumeral(n, Rfc)
  }

  /** Strings are code units, and numbers print as JavaScript prints them. */
  predicate JsOk(v: JsValue) {
    match v
    case JsNumber(n) => NumeralOk(n)
    case JsString(s) => AreUnits(s)
    case JsArray(items) => forall x :: x in items ==> JsOk(x)
    case JsObject(members) => forall x :: x in members ==> AreUnits(x.key) && JsOk(x.value)
    case _ => true
  }

  predicate PlainOk(p: Plain) {
    match p
    case PNumber(n) => NumeralOk(n)
    case PString(s) => AreUnits(s)
    case PArray(items) => forall i :: 0 <= i < |items| ==> PlainOk(items[i])
    case PObject(fields) => forall i :: 0 <= i < |fields| ==> AreUnits(fields[i].key) && PlainOk(fields[i].value)
    case _ => true
  }

  lemma {:induction false} NormalOk(v: JsValue)
    requires JsOk(v)
    ensures PlainOk(Normal(v))
    decreases v, 1
  {
    match v
    case JsArray(items) => NormalItemsOk(items);
    case JsObject(members) => NormalMembersOk(members);
    case _ =>
  }

  lemma {:induction false} NormalItemsOk(items: seq<JsValue>)
    requires forall x :: x in items ==> JsOk(x)
    ensures forall i :: 0 <= i < |items| ==> PlainOk(NormalItems(items)[i]) && NormalItems(items)[i] == Normal(items[i])
    decreases items, 0
  {
    if items != [] {
      NormalItemsOk(items[..|items| - 1]);
      NormalOk(items[|items| - 1]);
    }
  }

  lemma {:induction false} NormalMembersOk(members: seq<JsMember>)
    requires forall x :: x in members ==> AreUnits(x.key) && JsOk(x.value)
    ensures PlainOk(PObject(NormalMembers(members)))
    decreases members, 0
  {
    if members != [] {
      NormalMembersOk(members[..|members| - 1]);
      NormalOk(members[|members| - 1].value);
    }
  }

  // ----- the printed text

  function JoinText(parts: seq<Text>, sep: Text): Text {
    if parts == [] then [] else if |parts| == 1 then parts[0] else parts[0] + sep + JoinText(parts[1..], sep)
  }

  /** The parts between brackets, on lines of their own when there is a gap. */
  function Bracketed(open: int, parts: seq<Text>, close: int, gap: Text, mind: Text): Text {
    if parts == [] then [open, close]
    else if gap != [] then [open, 10] + gap + JoinText(parts, [44, 10] + gap) + [10] + mind + [close]
    else [open] + JoinText(parts, [44]) + [close]
  }

  function Colon(gap: Text): Text { if gap != [] then [58, 32] else [58] }

  function Print(p: Plain, gap: Text, indent: Text): Text
    requires PlainOk(p)
    decreases p
  {
    match p
    case PNull => WordText(Null)
    case PBool(b) => WordText(if b then True else False)
    case PNumber(n) => NumeralText(n)
    case PString(s) => Quote(s)
    case PArray(items) =>
      Bracketed(91, seq(|items|, i requires 0 <= i < |items| => Print(items[i], gap + indent, indent)), 93,
          gap + indent, gap)
    case PObject(fields) =>
      Bracketed(123, seq(|fields|, i requires 0 <= i < |fields| =>
          Quote(fields[i].key) + Colon(gap + indent) + Print(fields[i].value, gap + indent, indent)), 125,
              gap + indent, gap)
  }

  function ItemTexts(items: seq<Plain>, gap: Text, indent: Text): (r: seq<Text>)
    requires forall i :: 0 <= i < |items| ==> PlainOk(items[i])
    ensures |r| == |items| && forall i :: 0 <= i < |items| ==> r[i] == Print(items[i], gap, indent)
  {
    seq(|items|, i requires 0 <= i < |items| => Print(items[i], gap, indent))
  }

  function FieldText(f: Field, gap: Text, indent: Text): Text
    requires AreUnits(f.key) && PlainOk(f.value)
  {
    Quote(f.key) + Colon(gap) + Print(f.value, gap, indent)
  }

  function FieldTexts(fields: seq<Field>, gap: Text, indent: Text): (r: seq<Text>)
    requires forall i :: 0 <= i < |fields| ==> AreUnits(fields[i].key) && PlainOk(fields[i].value)
    ensures |r| == |fields| && forall i :: 0 <= i < |fields| ==> r[i] == FieldText(fields[i], gap, indent)
  {
    seq(|fields|, i requires 0 <= i < |fields| => FieldText(fields[i], gap, indent))
  }

  lemma PrintArray(items: seq<Plain>, gap: Text, indent: Text)
    requires PlainOk(PArray(items))
    ensures Print(PArray(items), gap, indent) ==
        Bracketed(91, ItemTexts(items, gap + indent, indent), 93, gap + indent, gap)
  {
    var g := gap + indent;
    assert seq(|items|, i requires 0 <= i < |items| => Print(items[i], g, indent)) == ItemTexts(items, g, indent);
  }

  lemma PrintObject(fields: seq<Field>, gap: Text, indent: Text)
    requires PlainOk(PObject(fields))
    ensures Print(PObject(fields), gap, indent) ==
        Bracketed(123, FieldTexts(fields, gap + indent, indent), 125, gap + indent, gap)
  {
    var g := gap + indent;
    assert seq(|fields|, i requires 0 <= i < |fields| => Quote(fields[i].key) + Colon(g) + Print(fields[i].value, g,
        indent))
        == FieldTexts(fields, g, indent);
  }

  lemma NoneNormal()
    ensures NormalMembers([]) == []
  {
  }

  /** What one more member adds to the parts of an object. */
  lemma MemberPrinted(members: seq<JsMember>, i: nat, gap: Text, indent: Text)
    requires i < |members| && forall x :: x in members ==> AreUnits(x.key) && JsOk(x.value)
    ensures PlainOk(Normal(members[i].value))
    ensures PlainOk(PObject(NormalMembers(members[..i]))) && PlainOk(PObject(NormalMembers(members[..i + 1])))
    ensures FieldTexts(NormalMembers(members[..i + 1]), gap, indent) ==
      FieldTexts(NormalMembers(members[..i]), gap, indent)
      + if members[i].value.Undefined? then [] else
          [Quote(members[i].key) + Colon(gap) + Print(Normal(members[i].value), gap, indent)]
  {
    hide NumeralOk, Quote, Colon, Print, JsOk, AreUnits;
    NormalOk(members[i].value);
    NormalMembersOk(members[..i]);
    NormalMembersOk(members[..i + 1]);
    assert members[..i + 1][..i] == members[..i];
  }

  lemma PrintNull(gap: Text, indent: Text)
    ensures Print(PNull, gap, indent) == WordText(Null)
  {
  }

  lemma PrintScalar(v: JsValue, gap: Text, indent: Text)
    requires PlainOk(Normal(v))
    ensures v.JsNull? || v.NonFinite? ==> Print(Normal(v), gap, indent) == WordText(Null)
    ensures v.JsBool? ==> Print(Normal(v), gap, indent) == WordText(if v.b then True else False)
    ensures v.JsNumber? ==> Print(Normal(v), gap, indent) == NumeralText(v.numeral)
    ensures v.JsString? ==> Print(Normal(v), gap, indent) == Quote(v.units)
  {
  }

  lemma WordsSpelled()
    ensures WordText(Null) == [110, 117, 108, 108] && WordText(True) == [116, 114, 117, 101]
    ensures WordText(False) == [102, 97, 108, 115, 101]
  {
  }

  // ----- the printer

  datatype Space = NoSpace | Count(n: int) | Filler(text: Text)

  /** The indentation asked for: so many blanks, or a given string. */
  function IndentOf(space: Space): (r: Text)
    ensures space.NoSpace? ==> r == []
    ensures space.Count? ==> |r| == (if space.n < 0 then 0 else space.n) && forall i :: 0 <= i < |r| ==> r[i] == 32
    ensures space.Filler? ==> r == space.text
  {
    match space
    case NoSpace => []
    case Count(n) => if n <= 0 then [] else seq(n, _ => 32)
    case Filler(t) => t
  }

  class Printer {
    var gap: Text
    var indent: Text

    constructor ()
      ensures gap == [] && indent == []
    {
      gap, indent := [], [];
    }

    /** The text of a value at the present gap, or None for a value that cannot be printed. The gap is as before. */
    method Str(value: JsValue) returns (r: Option<Text>)
      requires JsOk(value)
      modifies this`gap
      ensures gap == old(gap)
      ensures r.None? <==> value.Undefined?
      ensures r.Some? ==> PlainOk(Normal(value)) && r.value == Print(Normal(value), gap, indent)
      ensures value.JsNull? || value.NonFinite? ==> r == Some([110, 117, 108, 108])
      ensures value.JsBool? ==>
        r == Some(if value.b then [116, 114, 117, 101] else [102, 97, 108, 115, 101])
      ensures value.JsNumber? ==> r == Some(NumeralText(value.numeral))
      ensures value.JsString? ==> r == Some(Quote(value.units))
      decreases value
    {
      hide NumeralOk, NumeralText, Quote, Bracketed, WordText, Colon, NormalMembers, FieldTexts, ItemTexts, Print;
      NormalOk(value);
      PrintScalar(value, gap, indent);
      match value
      case Undefined => r := None;
      case JsString(s) => r := Some(Quote(s));
      case JsNumber(n) => r := Some(NumeralText(n));
      case NonFinite =>
        WordsSpelled();
        r := Some(WordText(Null));
      case JsBool(b) =>
        WordsSpelled();
        r := Some(WordText(if b then True else False));
      case JsNull =>
        WordsSpelled();
        r := Some(WordText(Null));
      case JsArray(items) =>
        var mind := gap;
        gap := gap + indent;
        var partial: seq<Text> := [];
        NormalItemsOk(items);
        for i := 0 to |items|
          invariant gap == mind + indent
          invariant |partial| == i && forall k :: 0 <= k < i ==> partial[k] == Print(NormalItems(items)[k], gap, indent)
        {
          PrintNull(gap, indent);
          var t := Str(items[i]);
          partial := partial + [if t.Some? then t.value else WordText(Null)];
        }
        assert partial == ItemTexts(NormalItems(items), gap, indent);
        PrintArray(NormalItems(items), mind, indent);
        r := Some(Bracketed(91, partial, 93, gap, mind));
        gap := mind;
      case JsObject(members) =>
        var mind := gap;
        gap := gap + indent;
        var partial: seq<Text> := [];
        NoneNormal();
        for i := 0 to |members|
          invariant gap == mind + indent
          invariant PlainOk(PObject(NormalMembers(members[..i])))
          invariant partial == FieldTexts(NormalMembers(members[..i]), gap, indent)
        {
          var k := members[i].key;
          var v := Str(members[i].value);
          MemberPrinted(members, i, gap, indent);
          if v.Some? {
            partial := partial + [Quote(k) + Colon(gap) + v.value];
          }
        }
        assert members[..|members|] == members;
        PrintObject(NormalMembers(members), mind, indent);
        r := Some(Bracketed(123, partial, 125, gap, mind));
        gap := mind;
    }

    /** The text of a whole value, with the indentation asked for. */
    method Stringify(value: JsValue, space: Space) returns (r: Option<Text>)
      requires JsOk(value)
      modifies this
      ensures r.None? <==> value.Undefined?
      ensures r.Some? ==> PlainOk(Normal(value)) && r.value == Print(Normal(value), [], IndentOf(space))
    {
      gap := [];
      indent := [];
      match space {
        case NoSpace =>
        case Count(n) =>
          var i := 0;
          while i < n
            invariant gap == [] && 0 <= i && (i <= n || (i == 0 && n <= 0)) && indent == seq(i, _ => 32)
          {
            indent := indent + [32];
            i := i + 1;
          }
        case Filler(t) => indent := t;
      }
      r := Str(value);
    }
  }
}
