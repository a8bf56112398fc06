// The recogniser of packages/cli/src/strict-json.ts as functions: what is left of the text after
// each construct, with the tree that was read.
module JsonParser {
  import opened Wrappers
  import opened Counting
  import opened JsonGrammar

  datatype Parsed<+T> = Parsed(tree: T, rest: Text)

  predicate StartsWith(text: Text, unit: nat) {
    text != [] && text[0] == unit
  }

  function Skip(text: Text): (r: Parsed<Text>)
    ensures |r.rest| <= |text|
  {
    if text == [] || !IsSpace(text[0]) then Parsed([], text)
    else
      var r := Skip(text[1..]);
      Parsed([text[0]] + r.tree, r.rest)
  }

  function TakeDigits(text: Text): (r: Parsed<Text>)
    ensures |r.rest| <= |text| && (text != [] && IsDigit(text[0]) ==> |r.rest| < |text|)
  {
    if text == [] || !IsDigit(text[0]) then Parsed([], text)
    else
      var r := TakeDigits(text[1..]);
      Parsed([text[0]] + r.tree, r.rest)
  }

  lemma {:induction false} SkipSplits(text: Text)
    ensures text == Skip(text).tree + Skip(text).rest
  {
    if text != [] && IsSpace(text[0]) {
      SkipSplits(text[1..]);
      Head(text, text[0]);
      Join(text, [text[0]], text[1..], Skip(text[1..]).tree, Skip(text[1..]).rest);
    }
  }

  lemma {:induction false} SkipStops(text: Text)
    ensures var r := Skip(text); Spaces(r.tree) && (r.rest != [] ==> !IsSpace(r.rest[0]))
  {
    if text != [] && IsSpace(text[0]) { SkipStops(text[1..]); }
  }

  lemma SkipSound(text: Text)
    ensures var r := Skip(text); text == r.tree + r.rest && Spaces(r.tree) && (r.rest != [] ==> !IsSpace(r.rest[0]))
  {
    SkipSplits(text);
    SkipStops(text);
  }

  lemma {:induction false} TakeDigitsSplits(text: Text)
    ensures var r := TakeDigits(text); text == r.tree + r.rest
  {
    if text != [] && IsDigit(text[0]) {
      TakeDigitsSplits(text[1..]);
      Head(text, text[0]);
      Join(text, [text[0]], text[1..], TakeDigits(text[1..]).tree, TakeDigits(text[1..]).rest);
    }
  }

  lemma {:induction false} TakeDigitsOnly(text: Text)
    ensures var r := TakeDigits(text); AllDigits(r.tree) && (r.rest != [] ==> !IsDigit(r.rest[0]))
  {
    if text != [] && IsDigit(text[0]) { TakeDigitsOnly(text[1..]); }
  }

  lemma TakeDigitsSound(text: Text)
    ensures var r := TakeDigits(text); text == r.tree + r.rest && AllDigits(r.tree) && (r.rest != [] ==> !IsDigit(r.rest[0]))
  {
    TakeDigitsSplits(text);
    TakeDigitsOnly(text);
  }

  // The rest of a string after its opening quote.
  function ParsePieces(text: Text): (r: Option<Parsed<seq<Piece>>>)
    ensures r.Some? ==> |r.value.rest| < |text|
  {
    if text == [] then None
    else if text[0] == QUOTE then Some(Parsed([], text[1..]))
    else if text[0] < 0x20 then None
    else if text[0] != BACKSLASH then Prepend(Plain(text[0]), ParsePieces(text[1..]))
    else if |text| < 2 then None
    else if text[1] == LOWER_U then
      if |text| < 6 || !IsHex(text[2]) || !IsHex(text[3]) || !IsHex(text[4]) || !IsHex(text[5]) then None
      else Prepend(Unicode(text[2], text[3], text[4], text[5]), ParsePieces(text[6..]))
    else if !IsShortEscape(text[1]) then None
    else Prepend(Short(text[1]), ParsePieces(text[2..]))
  }

  function Prepend(piece: Piece, r: Option<Parsed<seq<Piece>>>): Option<Parsed<seq<Piece>>> {
    if r.None? then None else Some(Parsed([piece] + r.value.tree, r.value.rest))
  }

  function ParseString(text: Text): (r: Option<Parsed<seq<Piece>>>)
    ensures r.Some? ==> |r.value.rest| < |text|
  {
    if StartsWith(text, QUOTE) then ParsePieces(text[1..]) else None
  }

  // An optional fraction: none unless a digit follows the point.
  function ParseFraction(text: Text): (r: Parsed<Option<Text>>)
    ensures |r.rest| <= |text|
  {
    if StartsWith(text, POINT) && TakeDigits(text[1..]).tree != [] then
      Parsed(Some(TakeDigits(text[1..]).tree), TakeDigits(text[1..]).rest)
    else Parsed(None, text)
  }

  function ParseSign(text: Text): (r: Parsed<Option<nat>>)
    ensures |r.rest| <= |text|
  {
    if StartsWith(text, PLUS) || StartsWith(text, MINUS) then Parsed(Some(text[0]), text[1..]) else Parsed(None, text)
  }

  function ParseExponent(text: Text): (r: Parsed<Option<Exponent>>)
    ensures |r.rest| <= |text|
  {
    if StartsWith(text, 0x65) || StartsWith(text, 0x45) then
      var sign := ParseSign(text[1..]);
      var digits := TakeDigits(sign.rest);
      if digits.tree == [] then Parsed(None, text) else Parsed(Some(Exponent(text[0], sign.tree, digits.tree)), digits.rest)
    else Parsed(None, text)
  }

  function ParseWhole(text: Text): (r: Parsed<Text>)
    requires text != [] && IsDigit(text[0])
    ensures |r.rest| < |text|
  {
    if text[0] == ZERO then Parsed([ZERO], text[1..]) else TakeDigits(text)
  }

  // The longest number at the start of the text.
  function ParseNumber(text: Text): (r: Option<Parsed<Number>>)
    ensures r.Some? ==> |r.value.rest| < |text|
  {
    var minus := StartsWith(text, MINUS);
    var unsigned := if minus then text[1..] else text;
    if unsigned == [] || !IsDigit(unsigned[0]) then None
    else
      var whole := ParseWhole(unsigned);
      var fraction := ParseFraction(whole.rest);
      var exponent := ParseExponent(fraction.rest);
      Some(Parsed(Number(minus, whole.tree, fraction.tree, exponent.tree), exponent.rest))
  }

  function ParseLiteral(text: Text): (r: Option<Parsed<Literal>>)
    ensures r.Some? ==> |r.value.rest| < |text|
  {
    if True.Print() <= text then Some(Parsed(True, text[4..]))
    else if False.Print() <= text then Some(Parsed(False, text[5..]))
    else if Null.Print() <= text then Some(Parsed(Null, text[4..]))
    else None
  }

  // value(depth), with the white space after it that every caller skips.
  function ParsePadded(text: Text, depth: nat): (r: Option<Parsed<Padded>>)
    ensures r.Some? ==> |r.value.rest| < |text|
    decreases |text|, 2
  {
    if depth > MAX_DEPTH then None
    else
      var before := Skip(text);
      var node := ParseNode(before.rest, depth);
      if node.None? then None
      else
        var after := Skip(node.value.rest);
        Some(Parsed(Padded(before.tree, node.value.tree, after.tree), after.rest))
  }

  function ParseNode(text: Text, depth: nat): (r: Option<Parsed<Node>>)
    ensures r.Some? ==> |r.value.rest| < |text|
    decreases |text|, 1
  {
    if StartsWith(text, QUOTE) then
      var s := ParseString(text);
      if s.None? then None else Some(Parsed(StringNode(s.value.tree), s.value.rest))
    else if StartsWith(text, OPEN_BRACE) then ParseObject(text, depth)
    else if StartsWith(text, OPEN_BRACKET) then ParseArray(text, depth)
    else if ParseLiteral(text).Some? then Some(Parsed(LiteralNode(ParseLiteral(text).value.tree), ParseLiteral(text).value.rest))
    else
      var number := ParseNumber(text);
      if number.None? then None else Some(Parsed(NumberNode(number.value.tree), number.value.rest))
  }

  function ParseObject(text: Text, depth: nat): (r: Option<Parsed<Node>>)
    requires StartsWith(text, OPEN_BRACE)
    ensures r.Some? ==> |r.value.rest| < |text|
    decreases |text|, 0
  {
    var space := Skip(text[1..]);
    if StartsWith(space.rest, CLOSE_BRACE) then Some(Parsed(EmptyObject(space.tree), space.rest[1..]))
    else
      var members := ParseMembers(text[1..], depth + 1, {});
      if members.None? then None else Some(Parsed(ObjectNode(members.value.tree), members.value.rest))
  }

  function ParseArray(text: Text, depth: nat): (r: Option<Parsed<Node>>)
    requires StartsWith(text, OPEN_BRACKET)
    ensures r.Some? ==> |r.value.rest| < |text|
    decreases |text|, 0
  {
    var space := Skip(text[1..]);
    if StartsWith(space.rest, CLOSE_BRACKET) then Some(Parsed(EmptyArray(space.tree), space.rest[1..]))
    else
      var items := ParseItems(text[1..], depth + 1);
      if items.None? then None else Some(Parsed(ArrayNode(items.value.tree), items.value.rest))
  }

  function ParseItems(text: Text, depth: nat): (r: Option<Parsed<Items>>)
    ensures r.Some? ==> |r.value.rest| < |text|
    decreases |text|, 3
  {
    var item := ParsePadded(text, depth);
    if item.None? then None
    else
      var rest := item.value.rest;
      if StartsWith(rest, CLOSE_BRACKET) then Some(Parsed(LastItem(item.value.tree), rest[1..]))
      else if StartsWith(rest, COMMA) then
        var more := ParseItems(rest[1..], depth);
        if more.None? then None else Some(Parsed(MoreItems(item.value.tree, more.value.tree), more.value.rest))
      else None
  }

  // A name that is not among those seen, and its value.
  function ParseMember(text: Text, depth: nat, seen: set<Text>): (r: Option<Parsed<Member>>)
    ensures r.Some? ==> |r.value.rest| < |text|
    ensures r.Some? ==> ValidPieces(r.value.tree.key)
    decreases |text|, 3
  {
    var before := Skip(text);
    var key := ParseString(before.rest);
    if key.None? then None
    else
      StringSound(before.rest);
      if Decoded(key.value.tree) in seen then None
      else
        var between := Skip(key.value.rest);
        if !StartsWith(between.rest, COLON) then None
        else
          var value := ParsePadded(between.rest[1..], depth);
          if value.None? then None
          else Some(Parsed(Member(before.tree, key.value.tree, between.tree, value.value.tree), value.value.rest))
  }

  function ParseMembers(text: Text, depth: nat, seen: set<Text>): (r: Option<Parsed<Members>>)
    ensures r.Some? ==> |r.value.rest| < |text|
    decreases |text|, 4
  {
    var member := ParseMember(text, depth, seen);
    if member.None? then None
    else
      var rest := member.value.rest;
      if StartsWith(rest, CLOSE_BRACE) then Some(Parsed(LastMember(member.value.tree), rest[1..]))
      else if StartsWith(rest, COMMA) then
        var more := ParseMembers(rest[1..], depth, seen + {Decoded(member.value.tree.key)});
        if more.None? then None else Some(Parsed(MoreMembers(member.value.tree, more.value.tree), more.value.rest))
      else None
  }

  // ----- Soundness: what is read is what is printed -----

  lemma Join(text: Text, a: Text, more: Text, b: Text, rest: Text)
    requires text == a + more && more == b + rest
    ensures text == a + b + rest
  {
  }

  lemma Head(text: Text, unit: nat)
    requires StartsWith(text, unit)
    ensures text == [unit] + text[1..]
  {
  }

  // A piece of n units in front of pieces read from the rest of the text.
  lemma PieceInFront(text: Text, n: nat, piece: Piece, r: Parsed<seq<Piece>>)
    requires n <= |text| && text[..n] == piece.Print() && text[n..] == PrintPieces(r.tree) + [QUOTE] + r.rest
    ensures text == PrintPieces([piece] + r.tree) + [QUOTE] + r.rest
  {
    assert ([piece] + r.tree)[1..] == r.tree;
    assert text == text[..n] + text[n..];
  }

  lemma {:induction false} PiecesSound(text: Text)
    requires ParsePieces(text).Some?
    ensures var r := ParsePieces(text).value; ValidPieces(r.tree) && text == PrintPieces(r.tree) + [QUOTE] + r.rest
  {
    if text[0] == QUOTE {
      Head(text, QUOTE);
    } else {
      var n, piece := FirstPiece(text);
      PiecesSound(text[n..]);
      PieceInFront(text, n, piece, ParsePieces(text[n..]).value);
    }
  }

  // The piece a string starts with, and its length.
  lemma FirstPiece(text: Text) returns (n: nat, piece: Piece)
    requires ParsePieces(text).Some? && text[0] != QUOTE
    ensures 0 < n <= |text| && text[..n] == piece.Print() && piece.Valid()
    ensures ParsePieces(text) == Prepend(piece, ParsePieces(text[n..]))
  {
    if text[0] != BACKSLASH {
      n, piece := 1, Plain(text[0]);
    } else if text[1] == LOWER_U {
      n, piece := 6, Unicode(text[2], text[3], text[4], text[5]);
    } else {
      n, piece := 2, Short(text[1]);
    }
  }

  lemma StringSound(text: Text)
    requires ParseString(text).Some?
    ensures var r := ParseString(text).value; ValidPieces(r.tree) && text == PrintString(r.tree) + r.rest
  {
    PiecesSound(text[1..]);
  }

  lemma FractionSound(text: Text)
    ensures var r := ParseFraction(text); text == PrintFraction(r.tree) + r.rest && (r.tree.Some? ==> Digits(r.tree.value))
  {
    if StartsWith(text, POINT) {
      TakeDigitsSound(text[1..]);
      Head(text, POINT);
      Join(text, [POINT], text[1..], TakeDigits(text[1..]).tree, TakeDigits(text[1..]).rest);
    }
  }

  lemma SignSound(text: Text)
    ensures var r := ParseSign(text); text == (if r.tree.None? then [] else [r.tree.value]) + r.rest
  {
    if ParseSign(text).tree.Some? { Head(text, text[0]); }
  }

  lemma ExponentSound(text: Text)
    ensures var r := ParseExponent(text);
      && text == PrintExponent(r.tree) + r.rest
      && (r.tree.Some? ==> r.tree.value.Valid())
  {
    if ParseExponent(text).tree.Some? {
      var sign := ParseSign(text[1..]);
      var digits := TakeDigits(sign.rest);
      TakeDigitsSound(sign.rest);
      Head(text, text[0]);
      var printed: Text := if sign.tree.None? then [] else [sign.tree.value];
      SignSound(text[1..]);
      Join(text, [text[0]], text[1..], printed, sign.rest);
      Join(text, [text[0]] + printed, sign.rest, digits.tree, digits.rest);
    }
  }

  lemma WholeSound(text: Text)
    requires text != [] && IsDigit(text[0])
    ensures var r := ParseWhole(text); text == r.tree + r.rest && Digits(r.tree) && (r.tree[0] == ZERO ==> |r.tree| == 1)
  {
    TakeDigitsSound(text);
  }

  lemma NumberSound(text: Text)
    requires ParseNumber(text).Some?
    ensures var r := ParseNumber(text).value; r.tree.Valid() && text == r.tree.Print() + r.rest
  {
    var unsigned := if StartsWith(text, MINUS) then text[1..] else text;
    WholeSound(unsigned);
    var whole := ParseWhole(unsigned);
    FractionSound(whole.rest);
    var fraction := ParseFraction(whole.rest);
    ExponentSound(fraction.rest);
    var exponent := ParseExponent(fraction.rest);
    var sign: Text := if StartsWith(text, MINUS) then [MINUS] else [];
    Join(text, sign, unsigned, whole.tree, whole.rest);
    Join(text, sign + whole.tree, whole.rest, PrintFraction(fraction.tree), fraction.rest);
    Join(text, sign + whole.tree + PrintFraction(fraction.tree), fraction.rest, PrintExponent(exponent.tree), exponent.rest);
  }

  lemma LiteralSound(text: Text)
    requires ParseLiteral(text).Some?
    ensures var r := ParseLiteral(text).value; text == r.tree.Print() + r.rest
  {
  }

  // ----- Soundness of values -----

  // What reading a value at this depth promises.
  predicate Accepted(node: Node, depth: nat) {
    ValidNode(node) && NoDuplicates(node) && depth + Height(node) <= MAX_DEPTH
  }

  predicate ItemsAccepted(items: Items, depth: nat) {
    ValidItems(items) && NoDuplicatesInItems(items) && depth + ItemsHeight(items) <= MAX_DEPTH
  }

  ghost predicate MembersAccepted(members: Members, depth: nat, seen: set<Text>) {
    && ValidMembers(members) && NoDuplicatesInMembers(members) && depth + MembersHeight(members) <= MAX_DEPTH
    && Distinct(KeysOf(members))
    && (forall i :: 0 <= i < |KeysOf(members)| ==> KeysOf(members)[i] !in seen)
  }

  lemma {:induction false} PaddedSound(text: Text, depth: nat)
    requires ParsePadded(text, depth).Some?
    ensures var r := ParsePadded(text, depth).value; text == Print(r.tree) + r.rest && Valid(r.tree) && Accepted(r.tree.node, depth)
    decreases |text|, 2
  {
    var before := Skip(text);
    SkipSound(text);
    NodeSound(before.rest, depth);
    var node := ParseNode(before.rest, depth).value;
    var after := Skip(node.rest);
    SkipSound(node.rest);
    Join(text, before.tree, before.rest, PrintNode(node.tree), node.rest);
    Join(text, before.tree + PrintNode(node.tree), node.rest, after.tree, after.rest);
  }

  lemma {:induction false} NodeSound(text: Text, depth: nat)
    requires ParseNode(text, depth).Some? && depth <= MAX_DEPTH
    ensures var r := ParseNode(text, depth).value; text == PrintNode(r.tree) + r.rest && Accepted(r.tree, depth)
    decreases |text|, 1
  {
    if StartsWith(text, QUOTE) {
      StringSound(text);
    } else if StartsWith(text, OPEN_BRACE) {
      ObjectSound(text, depth);
    } else if StartsWith(text, OPEN_BRACKET) {
      ArraySound(text, depth);
    } else if ParseLiteral(text).Some? {
      LiteralSound(text);
    } else {
      NumberSound(text);
    }
  }

  lemma {:induction false} ObjectSound(text: Text, depth: nat)
    requires StartsWith(text, OPEN_BRACE) && ParseObject(text, depth).Some? && depth <= MAX_DEPTH
    ensures var r := ParseObject(text, depth).value; text == PrintNode(r.tree) + r.rest && Accepted(r.tree, depth)
    decreases |text|, 0
  {
    SkipSound(text[1..]);
    if StartsWith(Skip(text[1..]).rest, CLOSE_BRACE) {
      EmptySound(text, OPEN_BRACE, CLOSE_BRACE);
    } else {
      MembersSound(text[1..], depth + 1, {});
      var members := ParseMembers(text[1..], depth + 1, {}).value;
      ObjectAccepted(members.tree, depth);
      ObjectText(text, members.tree, members.rest);
    }
  }

  lemma ObjectAccepted(members: Members, depth: nat)
    requires MembersAccepted(members, depth + 1, {})
    ensures Accepted(ObjectNode(members), depth)
  {
  }

  lemma ObjectText(text: Text, members: Members, rest: Text)
    requires StartsWith(text, OPEN_BRACE) && text[1..] == PrintMembers(members) + rest
    ensures text == PrintNode(ObjectNode(members)) + rest
  {
    Head(text, OPEN_BRACE);
    Join(text, [OPEN_BRACE], text[1..], PrintMembers(members), rest);
  }

  lemma {:induction false} ArraySound(text: Text, depth: nat)
    requires StartsWith(text, OPEN_BRACKET) && ParseArray(text, depth).Some? && depth <= MAX_DEPTH
    ensures var r := ParseArray(text, depth).value; text == PrintNode(r.tree) + r.rest && Accepted(r.tree, depth)
    decreases |text|, 0
  {
    SkipSound(text[1..]);
    if StartsWith(Skip(text[1..]).rest, CLOSE_BRACKET) {
      EmptySound(text, OPEN_BRACKET, CLOSE_BRACKET);
    } else {
      ItemsSound(text[1..], depth + 1);
      var items := ParseItems(text[1..], depth + 1).value;
      Head(text, OPEN_BRACKET);
      Join(text, [OPEN_BRACKET], text[1..], PrintItems(items.tree), items.rest);
    }
  }

  lemma EmptySound(text: Text, open: nat, close: nat)
    requires StartsWith(text, open) && StartsWith(Skip(text[1..]).rest, close)
    ensures text == [open] + Skip(text[1..]).tree + [close] + Skip(text[1..]).rest[1..]
  {
    var space := Skip(text[1..]);
    SkipSound(text[1..]);
    Head(text, open);
    Join(text, [open], text[1..], space.tree, space.rest);
    Head(space.rest, close);
    Join(text, [open] + space.tree, space.rest, [close], space.rest[1..]);
  }

  lemma {:induction false} ItemsSound(text: Text, depth: nat)
    requires ParseItems(text, depth).Some?
    ensures var r := ParseItems(text, depth).value; text == PrintItems(r.tree) + r.rest && ItemsAccepted(r.tree, depth)
    decreases |text|, 3
  {
    PaddedSound(text, depth);
    var item := ParsePadded(text, depth).value;
    if StartsWith(item.rest, CLOSE_BRACKET) {
      Head(item.rest, CLOSE_BRACKET);
      Join(text, Print(item.tree), item.rest, [CLOSE_BRACKET], item.rest[1..]);
    } else {
      ItemsSound(item.rest[1..], depth);
      var more := ParseItems(item.rest[1..], depth).value;
      Head(item.rest, COMMA);
      Join(text, Print(item.tree), item.rest, [COMMA], item.rest[1..]);
      Join(text, Print(item.tree) + [COMMA], item.rest[1..], PrintItems(more.tree), more.rest);
    }
  }

  lemma MemberSound(text: Text, depth: nat, seen: set<Text>)
    requires ParseMember(text, depth, seen).Some?
    ensures var r := ParseMember(text, depth, seen).value;
      && text == PrintMember(r.tree) + r.rest && ValidMember(r.tree) && Accepted(r.tree.value.node, depth)
      && Decoded(r.tree.key) !in seen
    decreases |text|, 3
  {
    var before := Skip(text);
    SkipSound(text);
    StringSound(before.rest);
    var key := ParseString(before.rest).value;
    var between := Skip(key.rest);
    SkipSound(key.rest);
    PaddedSound(between.rest[1..], depth);
    var value := ParsePadded(between.rest[1..], depth).value;
    Join(text, before.tree, before.rest, PrintString(key.tree), key.rest);
    Join(text, before.tree + PrintString(key.tree), key.rest, between.tree, between.rest);
    Head(between.rest, COLON);
    Join(text, before.tree + PrintString(key.tree) + between.tree, between.rest, [COLON], between.rest[1..]);
    Join(text, before.tree + PrintString(key.tree) + between.tree + [COLON], between.rest[1..], Print(value.tree), value.rest);
  }

  lemma {:induction false} MembersSound(text: Text, depth: nat, seen: set<Text>)
    requires ParseMembers(text, depth, seen).Some?
    ensures var r := ParseMembers(text, depth, seen).value; text == PrintMembers(r.tree) + r.rest && MembersAccepted(r.tree, depth, seen)
    decreases |text|, 4
  {
    MemberSound(text, depth, seen);
    var member := ParseMember(text, depth, seen).value;
    if StartsWith(member.rest, CLOSE_BRACE) {
      Head(member.rest, CLOSE_BRACE);
      Join(text, PrintMember(member.tree), member.rest, [CLOSE_BRACE], member.rest[1..]);
    } else {
      var key := Decoded(member.tree.key);
      MembersSound(member.rest[1..], depth, seen + {key});
      var more := ParseMembers(member.rest[1..], depth, seen + {key}).value;
      Head(member.rest, COMMA);
      Join(text, PrintMember(member.tree), member.rest, [COMMA], member.rest[1..]);
      Join(text, PrintMember(member.tree) + [COMMA], member.rest[1..], PrintMembers(more.tree), more.rest);
      KeysFresh(MoreMembers(member.tree, more.tree), depth, seen);
    }
  }

  // A name that is new, before names that differ from it.
  lemma KeysFresh(members: Members, depth: nat, seen: set<Text>)
    requires members.MoreMembers? && ValidMember(members.member) && Accepted(members.member.value.node, depth)
    requires Decoded(members.member.key) !in seen
    requires MembersAccepted(members.rest, depth, seen + {Decoded(members.member.key)})
    ensures MembersAccepted(members, depth, seen)
  {
    var keys, more := KeysOf(members), KeysOf(members.rest);
    forall i | 0 <= i < |keys| ensures keys[i] !in seen {
      if i > 0 { assert more[i - 1] !in seen + {Decoded(members.member.key)}; }
    }
    forall i, j | 0 <= i < j < |keys| ensures keys[i] != keys[j] {
      assert keys[j] == more[j - 1];
    }
  }
}
