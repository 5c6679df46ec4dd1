/** Two languages on the same derivation trees, and the text each tree spells: that of section 2 of RFC 4627 (whose top
  level is an object or an array), and the one the checker is meant to recognise.

  A text is a sequence of character codes. The program's tables let the digits after a decimal point be missing, do not
  let an exponent follow a bare `0`, and put no upper bound on a character inside a string.
 */
module JsonGrammar {
  import opened Wrappers
  import opened JsonTables

  type Text = seq<int>

  datatype Word = True | False | Null

  datatype Exponent = Exponent(mark: int, sign: Text, digits: Text)

  datatype Numeral = Numeral(minus: bool, whole: Text, fraction: Option<Text>, exponent: Option<Exponent>)

  datatype Value =
    | Literal(word: Word)
    | Number(numeral: Numeral)
    | String(body: Text)
    | EmptyArray(gap: Text)
    | Array(elements: Elements)
    | EmptyObject(gap: Text)
    | Object(members: Members)

  /** A value with the white space before and after it. */
  datatype Padded = Padded(before: Text, value: Value, after: Text)

  datatype Elements = OneElement(element: Padded) | MoreElements(element: Padded, rest: Elements)

  datatype Member = Member(before: Text, name: Text, after: Text, value: Padded)

  datatype Members = OneMember(member: Member) | MoreMembers(member: Member, rest: Members)

  /** The two languages, and the trees that either of them admits. */
  datatype Dialect = Program | Rfc | Either

  const LAST_CHARACTER: int := 0x10FFFF

  // ----- which trees are derivations

  predicate IsWsText(t: Text) {
    forall i :: 0 <= i < |t| ==> IsWs(t[i])
  }

  predicate IsDigits(t: Text) {
    forall i :: 0 <= i < |t| ==> IsDigit(t[i])
  }

  /** The inside of a string: characters, two-character escapes and `\uXXXX`. */
  predicate IsBody(t: Text, d: Dialect := Program) {
    t == [] ||
    if t[0] != 92 then t[0] >= 32 && t[0] != 34 && (d.Rfc? ==> t[0] <= LAST_CHARACTER) && IsBody(t[1..], d)
    else if |t| >= 2 && t[1] == 117 then
      |t| >= 6 && IsHex(t[2]) && IsHex(t[3]) && IsHex(t[4]) && IsHex(t[5]) && IsBody(t[6..], d)
    else |t| >= 2 && t[1] in {34, 92, 47, 98, 102, 110, 114, 116} && IsBody(t[2..], d)
  }

  predicate IsWhole(t: Text) {
    t == [48] || (|t| > 0 && t[0] != 48 && IsDigits(t))
  }

  predicate IsExponent(e: Exponent) {
    (e.mark == 101 || e.mark == 69) && e.sign in {[], [43], [45]} && |e.digits| > 0 && IsDigits(e.digits)
  }

  predicate IsNumeral(n: Numeral, d: Dialect := Program) {
    && IsWhole(n.whole)
    && (n.fraction.Some? ==> IsDigits(n.fraction.value) && (d.Rfc? ==> n.fraction.value != []))
    && (n.exponent.Some? ==> IsExponent(n.exponent.value))
    && (d.Program? && n.whole == [48] && n.fraction.None? ==> n.exponent.None?)
  }

  predicate IsValue(v: Value, d: Dialect := Program) {
    match v
    case Literal(_) => true
    case Number(n) => IsNumeral(n, d)
    case String(b) => IsBody(b, d)
    case EmptyArray(g) => IsWsText(g)
    case Array(es) => IsElements(es, d)
    case EmptyObject(g) => IsWsText(g)
    case Object(ms) => IsMembers(ms, d)
  }

  predicate IsPadded(p: Padded, d: Dialect := Program) {
    IsWsText(p.before) && IsValue(p.value, d) && IsWsText(p.after)
  }

  predicate IsElements(es: Elements, d: Dialect := Program) {
    IsPadded(es.element, d) && (es.MoreElements? ==> IsElements(es.rest, d))
  }

  predicate IsMember(m: Member, d: Dialect := Program) {
    IsWsText(m.before) && IsBody(m.name, d) && IsWsText(m.after) && IsPadded(m.value, d)
  }

  predicate IsMembers(ms: Members, d: Dialect := Program) {
    IsMember(ms.member, d) && (ms.MoreMembers? ==> IsMembers(ms.rest, d))
  }

  // ----- the text of a tree

  function WordText(w: Word): Text {
    match w
    case True => [116, 114, 117, 101]
    case False => [102, 97, 108, 115, 101]
    case Null => [110, 117, 108, 108]
  }

  function ExponentText(e: Exponent): Text {
    [e.mark] + e.sign + e.digits
  }

  function NumeralText(n: Numeral): Text {
    (if n.minus then [45] else []) + n.whole
    + (if n.fraction.Some? then [46] + n.fraction.value else [])
    + (if n.exponent.Some? then ExponentText(n.exponent.value) else [])
  }

  function StringText(b: Text): Text {
    [34] + b + [34]
  }

  function ValueText(v: Value): Text {
    match v
    case Literal(w) => WordText(w)
    case Number(n) => NumeralText(n)
    case String(b) => StringText(b)
    case EmptyArray(g) => [91] + g + [93]
    case Array(es) => [91] + ElementsText(es) + [93]
    case EmptyObject(g) => [123] + g + [125]
    case Object(ms) => [123] + MembersText(ms) + [125]
  }

  function PaddedText(p: Padded): Text {
    p.before + ValueText(p.value) + p.after
  }

  function ElementsText(es: Elements): Text {
    match es
    case OneElement(e) => PaddedText(e)
    case MoreElements(e, rest) => PaddedText(e) + [44] + ElementsText(rest)
  }

  function MemberText(m: Member): Text {
    m.before + StringText(m.name) + m.after + [58] + PaddedText(m.value)
  }

  function MembersText(ms: Members): Text {
    match ms
    case OneMember(m) => MemberText(m)
    case MoreMembers(m, rest) => MemberText(m) + [44] + MembersText(rest)
  }

  // ----- nesting

  function Max(a: nat, b: nat): nat { if a < b then b else a }

  function Nesting(v: Value): nat {
    match v
    case EmptyArray(_) => 1
    case Array(es) => 1 + ElementsNesting(es)
    case EmptyObject(_) => 1
    case Object(ms) => 1 + MembersNesting(ms)
    case _ => 0
  }

  function ElementsNesting(es: Elements): nat {
    match es
    case OneElement(e) => Nesting(e.value)
    case MoreElements(e, rest) => Max(Nesting(e.value), ElementsNesting(rest))
  }

  function MembersNesting(ms: Members): nat {
    match ms
    case OneMember(m) => Nesting(m.value.value)
    case MoreMembers(m, rest) => Max(Nesting(m.value.value), MembersNesting(rest))
  }

  predicate IsComposite(v: Value) {
    v.EmptyArray? || v.Array? || v.EmptyObject? || v.Object?
  }

  /** A whole JSON text: an object or an array, with white space around it. */
  predicate IsDocument(p: Padded, d: Dialect := Program) {
    IsPadded(p, d) && IsComposite(p.value)
  }

  ghost predicate InGrammar(t: Text, nesting: int) {
    exists p :: IsDocument(p) && PaddedText(p) == t && Nesting(p.value) <= nesting
  }

  /** The texts of RFC 4627, of any nesting. */
  ghost predicate InRfc(t: Text) {
    exists p :: IsDocument(p, Rfc) && PaddedText(p) == t
  }
}
