// JSON texts (RFC 8259, sections 2 to 7) as trees that keep every code unit, so that printing a
// tree gives back the text it stands for.
module JsonGrammar {
  import opened Wrappers
  import opened Counting

  // A text is a sequence of UTF-16 code units.
  type Text = seq<nat>

  const QUOTE: nat := 0x22
  const BACKSLASH: nat := 0x5C
  const COMMA: nat := 0x2C
  const COLON: nat := 0x3A
  const OPEN_BRACKET: nat := 0x5B
  const CLOSE_BRACKET: nat := 0x5D
  const OPEN_BRACE: nat := 0x7B
  const CLOSE_BRACE: nat := 0x7D
  const MINUS: nat := 0x2D
  const PLUS: nat := 0x2B
  const POINT: nat := 0x2E
  const ZERO: nat := 0x30
  const LOWER_U: nat := 0x75
  const MAX_DEPTH: nat := 64

  predicate IsSpace(u: nat) { u == 0x20 || u == 0x09 || u == 0x0A || u == 0x0D }

  predicate IsDigit(u: nat) { ZERO <= u <= 0x39 }

  predicate IsHex(u: nat) { IsDigit(u) || 0x41 <= u <= 0x46 || 0x61 <= u <= 0x66 }

  // " \ / b f n r t
  predicate IsShortEscape(u: nat) {
    u == QUOTE || u == BACKSLASH || u == 0x2F || u == 0x62 || u == 0x66 || u == 0x6E || u == 0x72 || u == 0x74
  }

  predicate Spaces(text: Text) { forall i :: 0 <= i < |text| ==> IsSpace(text[i]) }

  predicate AllDigits(text: Text) { forall i :: 0 <= i < |text| ==> IsDigit(text[i]) }

  predicate Digits(text: Text) { |text| > 0 && AllDigits(text) }

  function HexValue(u: nat): nat
    requires IsHex(u)
  {
    if IsDigit(u) then u - ZERO else if u <= 0x46 then u - 0x41 + 10 else u - 0x61 + 10
  }

  // ----- Strings -----

  datatype Piece = Plain(unit: nat) | Short(letter: nat) | Unicode(a: nat, b: nat, c: nat, d: nat)
  {
    predicate Valid() {
      match this
      case Plain(u) => u >= 0x20 && u != QUOTE && u != BACKSLASH
      case Short(u) => IsShortEscape(u)
      case Unicode(a, b, c, d) => IsHex(a) && IsHex(b) && IsHex(c) && IsHex(d)
    }

    function Print(): Text {
      match this
      case Plain(u) => [u]
      case Short(u) => [BACKSLASH, u]
      case Unicode(a, b, c, d) => [BACKSLASH, LOWER_U, a, b, c, d]
    }

    // The code unit the piece stands for.
    function Unit(): nat
      requires Valid()
    {
      match this
      case Plain(u) => u
      case Short(u) =>
        if u == 0x62 then 8 else if u == 0x66 then 12 else if u == 0x6E then 10 else if u == 0x72 then 13 else if u == 0x74 then 9 else u
      case Unicode(a, b, c, d) => HexValue(a) * 4096 + HexValue(b) * 256 + HexValue(c) * 16 + HexValue(d)
    }
  }

  predicate ValidPieces(pieces: seq<Piece>) { forall i :: 0 <= i < |pieces| ==> pieces[i].Valid() }

  function PrintPieces(pieces: seq<Piece>): Text {
    if pieces == [] then [] else pieces[0].Print() + PrintPieces(pieces[1..])
  }

  function PrintString(pieces: seq<Piece>): Text {
    [QUOTE] + PrintPieces(pieces) + [QUOTE]
  }

  // The string itself, escapes resolved.
  function Decoded(pieces: seq<Piece>): Text
    requires ValidPieces(pieces)
  {
    seq<nat>(|pieces|, i requires 0 <= i < |pieces| => pieces[i].Unit())
  }

  // ----- Numbers -----

  datatype Exponent = Exponent(mark: nat, sign: Option<nat>, digits: Text)
  {
    predicate Valid() {
      && (mark == 0x65 || mark == 0x45)
      && (sign.Some? ==> sign.value == PLUS || sign.value == MINUS)
      && Digits(digits)
    }
  }

  datatype Number = Number(minus: bool, whole: Text, fraction: Option<Text>, exponent: Option<Exponent>)
  {
    predicate Valid() {
      && Digits(whole) && (whole[0] == ZERO ==> |whole| == 1)
      && (fraction.Some? ==> Digits(fraction.value))
      && (exponent.Some? ==> exponent.value.Valid())
    }

    function Print(): Text {
      (if minus then [MINUS] else []) + whole + PrintFraction(fraction) + PrintExponent(exponent)
    }
  }

  function PrintFraction(fraction: Option<Text>): Text {
    if fraction.None? then [] else [POINT] + fraction.value
  }

  function PrintExponent(exponent: Option<Exponent>): Text {
    if exponent.None? then []
    else [exponent.value.mark] + (if exponent.value.sign.None? then [] else [exponent.value.sign.value]) + exponent.value.digits
  }

  // ----- Values -----

  datatype Literal = True | False | Null
  {
    function Print(): Text {
      match this
      case True => [0x74, 0x72, 0x75, 0x65]
      case False => [0x66, 0x61, 0x6C, 0x73, 0x65]
      case Null => [0x6E, 0x75, 0x6C, 0x6C]
    }
  }

  datatype Node =
    | StringNode(pieces: seq<Piece>)
    | NumberNode(number: Number)
    | LiteralNode(literal: Literal)
    | EmptyArray(space: Text)
    | ArrayNode(items: Items)
    | EmptyObject(space: Text)
    | ObjectNode(members: Members)

  // A value with the white space around it.
  datatype Padded = Padded(before: Text, node: Node, after: Text)

  datatype Items = LastItem(item: Padded) | MoreItems(item: Padded, rest: Items)

  datatype Member = Member(before: Text, key: seq<Piece>, between: Text, value: Padded)

  datatype Members = LastMember(member: Member) | MoreMembers(member: Member, rest: Members)

  function Print(p: Padded): Text {
    p.before + PrintNode(p.node) + p.after
  }

  function PrintNode(node: Node): Text {
    match node
    case StringNode(pieces) => PrintString(pieces)
    case NumberNode(number) => number.Print()
    case LiteralNode(literal) => literal.Print()
    case EmptyArray(space) => [OPEN_BRACKET] + space + [CLOSE_BRACKET]
    case ArrayNode(items) => [OPEN_BRACKET] + PrintItems(items)
    case EmptyObject(space) => [OPEN_BRACE] + space + [CLOSE_BRACE]
    case ObjectNode(members) => [OPEN_BRACE] + PrintMembers(members)
  }

  function PrintItems(items: Items): Text {
    match items
    case LastItem(item) => Print(item) + [CLOSE_BRACKET]
    case MoreItems(item, rest) => Print(item) + [COMMA] + PrintItems(rest)
  }

  function PrintMember(m: Member): Text {
    m.before + PrintString(m.key) + m.between + [COLON] + Print(m.value)
  }

  function PrintMembers(members: Members): Text {
    match members
    case LastMember(member) => PrintMember(member) + [CLOSE_BRACE]
    case MoreMembers(member, rest) => PrintMember(member) + [COMMA] + PrintMembers(rest)
  }

  // ----- Which trees are JSON -----

  predicate Valid(p: Padded) {
    Spaces(p.before) && Spaces(p.after) && ValidNode(p.node)
  }

  predicate ValidNode(node: Node) {
    match node
    case StringNode(pieces) => ValidPieces(pieces)
    case NumberNode(number) => number.Valid()
    case LiteralNode(_) => true
    case EmptyArray(space) => Spaces(space)
    case ArrayNode(items) => ValidItems(items)
    case EmptyObject(space) => Spaces(space)
    case ObjectNode(members) => ValidMembers(members)
  }

  predicate ValidItems(items: Items) {
    Valid(items.item) && (items.MoreItems? ==> ValidItems(items.rest))
  }

  predicate ValidMember(m: Member) {
    Spaces(m.before) && ValidPieces(m.key) && Spaces(m.between) && Valid(m.value)
  }

  predicate ValidMembers(members: Members) {
    ValidMember(members.member) && (members.MoreMembers? ==> ValidMembers(members.rest))
  }

  // How many arrays and objects with something in them enclose the deepest value.
  function Height(node: Node): nat {
    match node
    case ArrayNode(items) => 1 + ItemsHeight(items)
    case ObjectNode(members) => 1 + MembersHeight(members)
    case _ => 0
  }

  function Max(a: nat, b: nat): nat { if a < b then b else a }

  function ItemsHeight(items: Items): nat {
    Max(Height(items.item.node), if items.MoreItems? then ItemsHeight(items.rest) else 0)
  }

  function MembersHeight(members: Members): nat {
    Max(Height(members.member.value.node), if members.MoreMembers? then MembersHeight(members.rest) else 0)
  }

  // The names of an object as they read once escapes are resolved.
  function KeysOf(members: Members): seq<Text>
    requires ValidMembers(members)
  {
    assert ValidMember(members.member);
    [Decoded(members.member.key)] + if members.MoreMembers? then KeysOf(members.rest) else []
  }

  predicate NoDuplicates(node: Node)
    requires ValidNode(node)
  {
    match node
    case ArrayNode(items) => NoDuplicatesInItems(items)
    case ObjectNode(members) => Distinct(KeysOf(members)) && NoDuplicatesInMembers(members)
    case _ => true
  }

  predicate NoDuplicatesInItems(items: Items)
    requires ValidItems(items)
  {
    assert Valid(items.item);
    NoDuplicates(items.item.node) && (items.MoreItems? ==> NoDuplicatesInItems(items.rest))
  }

  predicate NoDuplicatesInMembers(members: Members)
    requires ValidMembers(members)
  {
    assert ValidMember(members.member) && Valid(members.member.value);
    NoDuplicates(members.member.value.node) && (members.MoreMembers? ==> NoDuplicatesInMembers(members.rest))
  }

  // A JSON text nested at most MAX_DEPTH deep in which no object repeats a name.
  ghost predicate StrictJson(text: Text) {
    exists p :: IsStrict(p) && Print(p) == text
  }

  predicate IsStrict(p: Padded) {
    Valid(p) && NoDuplicates(p.node) && Height(p.node) <= MAX_DEPTH
  }
}
