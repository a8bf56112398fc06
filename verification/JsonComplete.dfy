// Every printing of a strict JSON value is read, and read as that value.
module JsonComplete {
  import opened Wrappers
  import opened JsonGrammar
  import opened JsonParser

  lemma Regroup(a: Text, b: Text, c: Text)
    ensures a + b + c == a + (b + c)
  {
  }

  lemma Tail(unit: nat, rest: Text)
    ensures StartsWith([unit] + rest, unit) && ([unit] + rest)[1..] == rest
  {
  }

  lemma {:induction false} SkipExact(space: Text, rest: Text)
    requires Spaces(space) && (rest == [] || !IsSpace(rest[0]))
    ensures Skip(space + rest) == Parsed(space, rest)
  {
    if space == [] {
      assert space + rest == rest;
    } else {
      SkipExact(space[1..], rest);
      assert (space + rest)[0] == space[0] && (space + rest)[1..] == space[1..] + rest;
      assert space == [space[0]] + space[1..];
    }
  }

  lemma {:induction false} TakeDigitsExact(digits: Text, rest: Text)
    requires AllDigits(digits) && (rest == [] || !IsDigit(rest[0]))
    ensures TakeDigits(digits + rest) == Parsed(digits, rest)
  {
    if digits == [] {
      assert digits + rest == rest;
    } else {
      TakeDigitsExact(digits[1..], rest);
      assert (digits + rest)[0] == digits[0] && (digits + rest)[1..] == digits[1..] + rest;
      assert digits == [digits[0]] + digits[1..];
    }
  }

  // ----- Strings -----

  lemma {:induction false} PiecesComplete(pieces: seq<Piece>, rest: Text)
    requires ValidPieces(pieces)
    ensures ParsePieces(PrintPieces(pieces) + [QUOTE] + rest) == Some(Parsed(pieces, rest))
  {
    var text := PrintPieces(pieces) + [QUOTE] + rest;
    if pieces == [] {
      assert text == [QUOTE] + rest;
    } else {
      var first, more := pieces[0].Print(), PrintPieces(pieces[1..]) + [QUOTE] + rest;
      PiecesComplete(pieces[1..], rest);
      Regroup(first, PrintPieces(pieces[1..]), [QUOTE]);
      Regroup(first, PrintPieces(pieces[1..]) + [QUOTE], rest);
      assert text == first + more;
      FirstPiece(pieces[0], more);
      assert pieces == [pieces[0]] + pieces[1..];
    }
  }

  lemma FirstPiece(piece: Piece, more: Text)
    requires piece.Valid()
    ensures ParsePieces(piece.Print() + more) == Prepend(piece, ParsePieces(more))
  {
    var first := piece.Print();
    var text := first + more;
    assert text[|first|..] == more;
    assert forall i :: 0 <= i < |first| ==> text[i] == first[i];
  }

  lemma StringComplete(pieces: seq<Piece>, rest: Text)
    requires ValidPieces(pieces)
    ensures ParseString(PrintString(pieces) + rest) == Some(Parsed(pieces, rest))
  {
    PiecesComplete(pieces, rest);
    var body := PrintPieces(pieces);
    Regroup([QUOTE] + body, [QUOTE], rest);
    Regroup([QUOTE], body, [QUOTE] + rest);
    Regroup(body, [QUOTE], rest);
    Tail(QUOTE, body + [QUOTE] + rest);
  }

  // ----- Numbers -----

  // What can follow a value: nothing, white space, or what separates and closes.
  predicate Ends(rest: Text) {
    rest == [] || IsSpace(rest[0]) || Closes(rest)
  }

  predicate Closes(rest: Text) {
    rest == [] || rest[0] == COMMA || rest[0] == CLOSE_BRACKET || rest[0] == CLOSE_BRACE
  }

  function PrintSign(sign: Option<nat>): Text {
    if sign.None? then [] else [sign.value]
  }

  lemma SignComplete(sign: Option<nat>, rest: Text)
    requires sign.Some? ==> sign.value == PLUS || sign.value == MINUS
    requires rest != [] && IsDigit(rest[0])
    ensures ParseSign(PrintSign(sign) + rest) == Parsed(sign, rest)
  {
    if sign.None? { assert PrintSign(sign) + rest == rest; } else { Tail(sign.value, rest); }
  }

  lemma ExponentComplete(exponent: Option<Exponent>, rest: Text)
    requires Ends(rest) && (exponent.Some? ==> exponent.value.Valid())
    ensures ParseExponent(PrintExponent(exponent) + rest) == Parsed(exponent, rest)
  {
    if exponent.None? {
      assert PrintExponent(exponent) + rest == rest;
    } else {
      var e := exponent.value;
      Regroup([e.mark] + PrintSign(e.sign), e.digits, rest);
      Regroup([e.mark], PrintSign(e.sign), e.digits + rest);
      Tail(e.mark, PrintSign(e.sign) + (e.digits + rest));
      SignComplete(e.sign, e.digits + rest);
      TakeDigitsExact(e.digits, rest);
    }
  }

  lemma FractionComplete(fraction: Option<Text>, rest: Text)
    requires (fraction.Some? ==> Digits(fraction.value)) && (rest == [] || (!IsDigit(rest[0]) && rest[0] != POINT))
    ensures ParseFraction(PrintFraction(fraction) + rest) == Parsed(fraction, rest)
  {
    if fraction.None? {
      assert PrintFraction(fraction) + rest == rest;
    } else {
      var text := PrintFraction(fraction) + rest;
      assert text == [POINT] + (fraction.value + rest);
      assert text[1..] == fraction.value + rest;
      TakeDigitsExact(fraction.value, rest);
    }
  }

  lemma WholeComplete(whole: Text, rest: Text)
    requires Digits(whole) && (whole[0] == ZERO ==> |whole| == 1) && (rest == [] || !IsDigit(rest[0]))
    ensures whole + rest != [] && IsDigit((whole + rest)[0]) && ParseWhole(whole + rest) == Parsed(whole, rest)
  {
    if whole[0] == ZERO {
      assert whole == [ZERO];
      assert (whole + rest)[1..] == rest;
    } else {
      TakeDigitsExact(whole, rest);
    }
  }

  lemma NumberText(number: Number, rest: Text)
    ensures number.Print() + rest ==
      (if number.minus then [MINUS] else []) + (number.whole + (PrintFraction(number.fraction) + (PrintExponent(number.exponent) + rest)))
  {
    var sign: Text := if number.minus then [MINUS] else [];
    var afterFraction := PrintExponent(number.exponent) + rest;
    Regroup(sign + number.whole + PrintFraction(number.fraction), PrintExponent(number.exponent), rest);
    Regroup(sign + number.whole, PrintFraction(number.fraction), afterFraction);
    Regroup(sign, number.whole, PrintFraction(number.fraction) + afterFraction);
  }

  // What follows the whole part and what follows the fraction cannot be taken for more of them.
  lemma NumberStops(number: Number, rest: Text)
    requires number.Valid() && Ends(rest)
    ensures var text := PrintExponent(number.exponent) + rest; text == [] || (!IsDigit(text[0]) && text[0] != POINT)
    ensures var text := PrintFraction(number.fraction) + (PrintExponent(number.exponent) + rest); text == [] || !IsDigit(text[0])
  {
    if number.exponent.None? { assert PrintExponent(number.exponent) + rest == rest; }
  }

  lemma NumberComplete(number: Number, rest: Text)
    requires number.Valid() && Ends(rest)
    ensures ParseNumber(number.Print() + rest) == Some(Parsed(number, rest))
  {
    var afterFraction := PrintExponent(number.exponent) + rest;
    var afterWhole := PrintFraction(number.fraction) + afterFraction;
    var unsigned := number.whole + afterWhole;
    var text := number.Print() + rest;
    NumberText(number, rest);
    NumberStops(number, rest);
    ExponentComplete(number.exponent, rest);
    FractionComplete(number.fraction, afterFraction);
    WholeComplete(number.whole, afterWhole);
    if number.minus { Tail(MINUS, unsigned); } else { assert text == unsigned; }
  }

  lemma LiteralComplete(literal: Literal, rest: Text)
    ensures ParseLiteral(literal.Print() + rest) == Some(Parsed(literal, rest))
  {
    var text := literal.Print() + rest;
    assert literal.Print() <= text;
    assert text[|literal.Print()|..] == rest;
    assert text[0] == literal.Print()[0];
  }

  // ----- Values -----

  // The first unit of a value tells its kind and is neither white space nor a closing mark.
  lemma NodeHead(node: Node, rest: Text)
    requires ValidNode(node)
    ensures var text := PrintNode(node) + rest;
      && text != [] && !IsSpace(text[0]) && !Closes(text)
      && (node.StringNode? <==> text[0] == QUOTE)
      && (node.EmptyArray? || node.ArrayNode? <==> text[0] == OPEN_BRACKET)
      && (node.EmptyObject? || node.ObjectNode? <==> text[0] == OPEN_BRACE)
      && (node.NumberNode? ==> text[0] == MINUS || IsDigit(text[0]))
  {
    match node
    case NumberNode(number) =>
      if !number.minus {
        assert number.Print()[0] == number.whole[0];
      }
    case _ =>
  }

  lemma {:induction false} PaddedComplete(p: Padded, rest: Text, depth: nat)
    requires Valid(p) && Accepted(p.node, depth) && Closes(rest)
    ensures ParsePadded(Print(p) + rest, depth) == Some(Parsed(p, rest))
    decreases p
  {
    var afterNode := p.after + rest;
    Regroup(p.before + PrintNode(p.node), p.after, rest);
    Regroup(p.before, PrintNode(p.node), afterNode);
    NodeHead(p.node, afterNode);
    SkipExact(p.before, PrintNode(p.node) + afterNode);
    SkipExact(p.after, rest);
    assert Ends(afterNode);
    NodeComplete(p.node, afterNode, depth);
  }

  lemma {:induction false} NodeComplete(node: Node, rest: Text, depth: nat)
    requires Accepted(node, depth) && Ends(rest)
    ensures ParseNode(PrintNode(node) + rest, depth) == Some(Parsed(node, rest))
    decreases node
  {
    NodeHead(node, rest);
    match node
    case StringNode(pieces) => StringComplete(pieces, rest);
    case NumberNode(number) =>
      NumberComplete(number, rest);
      NoLiteral(PrintNode(node) + rest);
    case LiteralNode(literal) => LiteralComplete(literal, rest);
    case EmptyArray(_) => EmptyArrayComplete(node, rest, depth);
    case EmptyObject(_) => EmptyObjectComplete(node, rest, depth);
    case ArrayNode(items) =>
      ItemsComplete(items, rest, depth + 1);
      ArrayText(items, rest);
    case ObjectNode(members) =>
      MembersComplete(members, rest, depth + 1, {});
      ObjectHead(members, rest);
  }

  lemma NoLiteral(text: Text)
    requires text != [] && (text[0] == MINUS || IsDigit(text[0]))
    ensures ParseLiteral(text).None?
  {
  }

  lemma EmptyArrayComplete(node: Node, rest: Text, depth: nat)
    requires node.EmptyArray? && Spaces(node.space)
    ensures ParseNode(PrintNode(node) + rest, depth) == Some(Parsed(node, rest))
  {
    var text := PrintNode(node) + rest;
    assert text == [OPEN_BRACKET] + (node.space + ([CLOSE_BRACKET] + rest));
    assert text[1..] == node.space + ([CLOSE_BRACKET] + rest);
    SkipExact(node.space, [CLOSE_BRACKET] + rest);
    Tail(CLOSE_BRACKET, rest);
  }

  lemma EmptyObjectComplete(node: Node, rest: Text, depth: nat)
    requires node.EmptyObject? && Spaces(node.space)
    ensures ParseNode(PrintNode(node) + rest, depth) == Some(Parsed(node, rest))
  {
    var text := PrintNode(node) + rest;
    assert text == [OPEN_BRACE] + (node.space + ([CLOSE_BRACE] + rest));
    assert text[1..] == node.space + ([CLOSE_BRACE] + rest);
    SkipExact(node.space, [CLOSE_BRACE] + rest);
    Tail(CLOSE_BRACE, rest);
  }

  // After its white space, a list of items does not begin with a closing bracket.
  lemma ItemsHead(items: Items, rest: Text)
    requires ValidItems(items)
    ensures !Closes(Skip(PrintItems(items) + rest).rest)
  {
    var p := items.item;
    var more: Text := (if items.LastItem? then [CLOSE_BRACKET] else [COMMA] + PrintItems(items.rest)) + rest;
    var afterNode := p.after + more;
    assert PrintItems(items) + rest == Print(p) + more;
    Regroup(p.before + PrintNode(p.node), p.after, more);
    Regroup(p.before, PrintNode(p.node), afterNode);
    NodeHead(p.node, afterNode);
    SkipExact(p.before, PrintNode(p.node) + afterNode);
  }

  lemma ArrayText(items: Items, rest: Text)
    requires ValidItems(items)
    ensures var text := PrintNode(ArrayNode(items)) + rest;
      StartsWith(text, OPEN_BRACKET) && text[1..] == PrintItems(items) + rest && !StartsWith(Skip(text[1..]).rest, CLOSE_BRACKET)
  {
    Regroup([OPEN_BRACKET], PrintItems(items), rest);
    Tail(OPEN_BRACKET, PrintItems(items) + rest);
    ItemsHead(items, rest);
  }

  lemma ObjectHead(members: Members, rest: Text)
    requires ValidMembers(members)
    ensures var text := PrintNode(ObjectNode(members)) + rest;
      StartsWith(text, OPEN_BRACE) && text[1..] == PrintMembers(members) + rest && !StartsWith(Skip(text[1..]).rest, CLOSE_BRACE)
  {
    Regroup([OPEN_BRACE], PrintMembers(members), rest);
    Tail(OPEN_BRACE, PrintMembers(members) + rest);
    MembersHead(members, rest);
  }

  lemma MembersHead(members: Members, rest: Text)
    requires ValidMembers(members)
    ensures !StartsWith(Skip(PrintMembers(members) + rest).rest, CLOSE_BRACE)
  {
    var m := members.member;
    assert ValidMember(m);
    var more: Text := (if members.LastMember? then [CLOSE_BRACE] else [COMMA] + PrintMembers(members.rest)) + rest;
    assert PrintMembers(members) + rest == PrintMember(m) + more;
    KeyFirst(m, more);
  }

  lemma KeyFirst(m: Member, more: Text)
    requires Spaces(m.before)
    ensures StartsWith(Skip(PrintMember(m) + more).rest, QUOTE)
  {
    var afterKey := m.between + [COLON] + Print(m.value);
    MemberText(m);
    Regroup(m.before, PrintString(m.key) + afterKey, more);
    assert (PrintString(m.key) + afterKey + more)[0] == QUOTE;
    SkipExact(m.before, PrintString(m.key) + afterKey + more);
  }

  lemma MemberText(m: Member)
    ensures PrintMember(m) == m.before + (PrintString(m.key) + (m.between + [COLON] + Print(m.value)))
  {
    Regroup(m.before + PrintString(m.key) + m.between, [COLON], Print(m.value));
    Regroup(m.before + PrintString(m.key), m.between, [COLON] + Print(m.value));
    Regroup(m.between, [COLON], Print(m.value));
    Regroup(m.before, PrintString(m.key), m.between + [COLON] + Print(m.value));
  }

  lemma {:induction false} ItemsComplete(items: Items, rest: Text, depth: nat)
    requires ItemsAccepted(items, depth)
    ensures ParseItems(PrintItems(items) + rest, depth) == Some(Parsed(items, rest))
    decreases items
  {
    match items
    case LastItem(item) =>
      Regroup(Print(item), [CLOSE_BRACKET], rest);
      PaddedComplete(item, [CLOSE_BRACKET] + rest, depth);
      Tail(CLOSE_BRACKET, rest);
    case MoreItems(item, more) =>
      ItemsComplete(more, rest, depth);
      Regroup(Print(item) + [COMMA], PrintItems(more), rest);
      Regroup(Print(item), [COMMA], PrintItems(more) + rest);
      PaddedComplete(item, [COMMA] + (PrintItems(more) + rest), depth);
      Tail(COMMA, PrintItems(more) + rest);
  }

  lemma {:induction false} MemberComplete(m: Member, rest: Text, depth: nat, seen: set<Text>)
    requires ValidMember(m) && Accepted(m.value.node, depth) && Closes(rest) && Decoded(m.key) !in seen
    ensures ParseMember(PrintMember(m) + rest, depth, seen) == Some(Parsed(m, rest))
    decreases m
  {
    var afterColon := Print(m.value) + rest;
    var afterKey := m.between + ([COLON] + afterColon);
    Regroup(m.before + PrintString(m.key) + m.between + [COLON], Print(m.value), rest);
    Regroup(m.before + PrintString(m.key) + m.between, [COLON], afterColon);
    Regroup(m.before + PrintString(m.key), m.between, [COLON] + afterColon);
    Regroup(m.before, PrintString(m.key), afterKey);
    SkipExact(m.before, PrintString(m.key) + afterKey);
    StringComplete(m.key, afterKey);
    SkipExact(m.between, [COLON] + afterColon);
    Tail(COLON, afterColon);
    PaddedComplete(m.value, rest, depth);
  }

  lemma {:induction false} MembersComplete(members: Members, rest: Text, depth: nat, seen: set<Text>)
    requires MembersAccepted(members, depth, seen)
    ensures ParseMembers(PrintMembers(members) + rest, depth, seen) == Some(Parsed(members, rest))
    decreases members
  {
    var member := members.member;
    assert ValidMember(member) && Valid(member.value) && KeysOf(members)[0] == Decoded(member.key);
    match members
    case LastMember(_) =>
      Regroup(PrintMember(member), [CLOSE_BRACE], rest);
      MemberComplete(member, [CLOSE_BRACE] + rest, depth, seen);
      Tail(CLOSE_BRACE, rest);
    case MoreMembers(_, more) =>
      KeysLater(members, depth, seen);
      MembersComplete(more, rest, depth, seen + {Decoded(member.key)});
      Regroup(PrintMember(member) + [COMMA], PrintMembers(more), rest);
      Regroup(PrintMember(member), [COMMA], PrintMembers(more) + rest);
      MemberComplete(member, [COMMA] + (PrintMembers(more) + rest), depth, seen);
      Tail(COMMA, PrintMembers(more) + rest);
  }

  lemma KeysLater(members: Members, depth: nat, seen: set<Text>)
    requires members.MoreMembers? && MembersAccepted(members, depth, seen)
    ensures ValidMember(members.member) && MembersAccepted(members.rest, depth, seen + {Decoded(members.member.key)})
  {
    assert ValidMember(members.member) && ValidPieces(members.member.key);
    var keys, more := KeysOf(members), KeysOf(members.rest);
    assert forall i :: 0 <= i < |more| ==> more[i] == keys[i + 1];
    forall i, j | 0 <= i < j < |more| ensures more[i] != more[j] {
      assert keys[i + 1] != keys[j + 1];
    }
    forall i | 0 <= i < |more| ensures more[i] !in seen + {Decoded(members.member.key)} {
      assert keys[0] != keys[i + 1];
    }
  }

  // ----- The whole text -----

  ghost predicate Reads(text: Text) {
    var r := ParsePadded(text, 0);
    r.Some? && r.value.rest == []
  }

  // The recogniser reads exactly the JSON texts without repeated names nested at most 64 deep, and
  // reads each in one way.
  lemma ReadsStrictJson(text: Text)
    ensures Reads(text) <==> StrictJson(text)
    ensures forall p :: IsStrict(p) && Print(p) == text ==> ParsePadded(text, 0) == Some(Parsed(p, []))
  {
    if Reads(text) {
      PaddedSound(text, 0);
      var p := ParsePadded(text, 0).value.tree;
      assert text == Print(p) + [] && Print(p) + [] == Print(p);
      assert IsStrict(p);
    }
    forall p | IsStrict(p) && Print(p) == text ensures ParsePadded(text, 0) == Some(Parsed(p, [])) {
      PaddedComplete(p, [], 0);
      assert Print(p) + [] == text;
    }
  }

  // One text, one value: no two different trees print alike.
  lemma PrintingIsUnambiguous(p: Padded, q: Padded)
    requires IsStrict(p) && IsStrict(q) && Print(p) == Print(q)
    ensures p == q
  {
    ReadsStrictJson(Print(p));
  }
}
