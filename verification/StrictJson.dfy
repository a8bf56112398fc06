// rejectDuplicateKeys (packages/cli/src/strict-json.ts): one cursor moving over the source.
module StrictJson {
  import opened Wrappers
  import opened JsonGrammar
  import opened JsonParser
  import opened JsonComplete

  function Leftover<T>(r: Option<Parsed<T>>): Option<Text> {
    if r.None? then None else Some(r.value.rest)
  }

  // value(depth): what it leaves, before any white space after the value.
  function ParseValue(text: Text, depth: nat): Option<Parsed<Node>> {
    if depth > MAX_DEPTH then None else ParseNode(Skip(text).rest, depth)
  }

  lemma PaddedIsValue(text: Text, depth: nat)
    ensures Leftover(ParsePadded(text, depth)) ==
      if ParseValue(text, depth).None? then None else Some(Skip(ParseValue(text, depth).value.rest).rest)
  {
  }

  lemma SkipTwice(text: Text)
    ensures Skip(Skip(text).rest).rest == Skip(text).rest
  {
    SkipSound(text);
  }

  function ItemsLeft(text: Text, depth: nat): Option<Text> {
    Leftover(ParseItems(text, depth))
  }

  function MembersLeft(text: Text, depth: nat, seen: set<Text>): Option<Text> {
    Leftover(ParseMembers(text, depth, seen))
  }

  // What follows an item decides what is left after all of them.
  lemma ItemsStep(text: Text, depth: nat)
    ensures var item := Leftover(ParsePadded(text, depth));
      ItemsLeft(text, depth) ==
        if item.None? then None
        else if StartsWith(item.value, CLOSE_BRACKET) then Some(item.value[1..])
        else if StartsWith(item.value, COMMA) then ItemsLeft(item.value[1..], depth)
        else None
  {
  }

  // The name of a member, with what is left after it.
  function EntryLeft(text: Text, depth: nat, seen: set<Text>): Option<(Text, Text)> {
    var member := ParseMember(text, depth, seen);
    if member.None? then None else Some((Decoded(member.value.tree.key), member.value.rest))
  }

  // A string, escapes resolved, with what is left after it.
  function StringLeft(text: Text): Option<(Text, Text)> {
    var s := ParseString(text);
    if s.None? then None
    else
      StringSound(text);
      Some((Decoded(s.value.tree), s.value.rest))
  }

  function NameLeft(text: Text, seen: set<Text>): Option<(Text, Text)> {
    var key := StringLeft(Skip(text).rest);
    if key.None? || key.value.0 in seen then None
    else
      var between := Skip(key.value.1).rest;
      if !StartsWith(between, COLON) then None else Some((key.value.0, between[1..]))
  }

  lemma EntryStep(text: Text, depth: nat, seen: set<Text>)
    ensures var name := NameLeft(text, seen);
      EntryLeft(text, depth, seen) ==
        if name.None? then None
        else
          var value := Leftover(ParsePadded(name.value.1, depth));
          if value.None? then None else Some((name.value.0, value.value))
  {
  }

  lemma MembersStep(text: Text, depth: nat, seen: set<Text>)
    ensures var entry := EntryLeft(text, depth, seen);
      MembersLeft(text, depth, seen) ==
        if entry.None? then None
        else if StartsWith(entry.value.1, CLOSE_BRACE) then Some(entry.value.1[1..])
        else if StartsWith(entry.value.1, COMMA) then MembersLeft(entry.value.1[1..], depth, seen + {entry.value.0})
        else None
  {
  }

  lemma ItemsSkip(text: Text, depth: nat)
    ensures ItemsLeft(Skip(text).rest, depth) == ItemsLeft(text, depth)
  {
    SkipTwice(text);
    ItemsStep(text, depth);
    ItemsStep(Skip(text).rest, depth);
    PaddedIsValue(text, depth);
    PaddedIsValue(Skip(text).rest, depth);
  }

  lemma MembersSkip(text: Text, depth: nat, seen: set<Text>)
    ensures MembersLeft(Skip(text).rest, depth, seen) == MembersLeft(text, depth, seen)
  {
    SkipTwice(text);
    MembersStep(text, depth, seen);
    MembersStep(Skip(text).rest, depth, seen);
    assert EntryLeft(text, depth, seen) == EntryLeft(Skip(text).rest, depth, seen);
  }

  // What an array or object leaves, from what its contents leave.
  lemma ArrayLeft(text: Text, depth: nat)
    requires StartsWith(text, OPEN_BRACKET)
    ensures var inner := Skip(text[1..]).rest;
      Leftover(ParseArray(text, depth)) ==
        if StartsWith(inner, CLOSE_BRACKET) then Some(inner[1..]) else ItemsLeft(inner, depth + 1)
  {
    ItemsSkip(text[1..], depth + 1);
  }

  lemma ObjectLeft(text: Text, depth: nat)
    requires StartsWith(text, OPEN_BRACE)
    ensures var inner := Skip(text[1..]).rest;
      Leftover(ParseObject(text, depth)) ==
        if StartsWith(inner, CLOSE_BRACE) then Some(inner[1..]) else MembersLeft(inner, depth + 1, {})
  {
    MembersSkip(text[1..], depth + 1, {});
  }

  // JSON.parse on a string token.
  function Unquote(token: Text): Text
    requires ParseString(token).Some?
  {
    StringSound(token);
    Decoded(ParseString(token).value.tree)
  }

  class Scanner {
    const source: Text
    var cursor: nat

    ghost predicate Valid()
      reads this
    {
      cursor <= |source|
    }

    ghost function Rest(): Text
      requires Valid()
      reads this
    {
      source[cursor..]
    }

    constructor (source: Text)
      ensures Valid() && this.source == source && cursor == 0
    {
      this.source := source;
      cursor := 0;
    }

    method Whitespace()
      requires Valid()
      modifies this
      ensures Valid() && Rest() == Skip(old(Rest())).rest && cursor >= old(cursor)
    {
      while cursor < |source| && IsSpace(source[cursor])
        invariant Valid() && cursor >= old(cursor)
        invariant Skip(Rest()).rest == Skip(old(Rest())).rest
      {
        assert Rest()[1..] == source[cursor + 1..];
        cursor := cursor + 1;
      }
    }

    method Character(expected: nat) returns (ok: bool)
      requires Valid()
      modifies this
      ensures Valid() && (ok <==> StartsWith(old(Rest()), expected))
      ensures ok ==> cursor == old(cursor) + 1 && Rest() == old(Rest())[1..]
      ensures !ok ==> cursor == old(cursor)
    {
      if cursor >= |source| || source[cursor] != expected { return false; }
      cursor := cursor + 1;
      ok := true;
    }

    // The source has `unit` at the cursor.
    predicate At(unit: nat)
      requires Valid()
      reads this
      ensures At(unit) <==> StartsWith(Rest(), unit)
    {
      cursor < |source| && source[cursor] == unit
    }

    // What string() recognises, before it is decoded.
    method Token() returns (ok: bool)
      requires Valid()
      modifies this
      ensures Valid() && cursor >= old(cursor)
      ensures ok <==> ParseString(old(Rest())).Some?
      ensures ok ==> Rest() == ParseString(old(Rest())).value.rest
    {
      ok := Character(QUOTE);
      if !ok { return; }
      ghost var pieces := ParsePieces(Rest());
      while cursor < |source|
        invariant Valid() && cursor >= old(cursor)
        invariant Leftover(ParsePieces(Rest())) == Leftover(pieces)
      {
        ghost var before := Rest();
        var unit := source[cursor];
        cursor := cursor + 1;
        assert Rest() == before[1..];
        if unit == QUOTE { return true; }
        if unit < 0x20 { return false; }
        if unit == BACKSLASH {
          if cursor >= |source| { return false; }
          var escape := source[cursor];
          cursor := cursor + 1;
          assert escape == before[1] && Rest() == before[2..];
          if !IsShortEscape(escape) && escape != LOWER_U { return false; }
          if escape == LOWER_U {
            if |source| - cursor < 4 || !IsHex(source[cursor]) || !IsHex(source[cursor + 1])
              || !IsHex(source[cursor + 2]) || !IsHex(source[cursor + 3]) {
              return false;
            }
            cursor := cursor + 4;
            assert Rest() == before[6..];
          }
        }
      }
      ok := false;
    }

    // string(): the decoded string, or nothing where the source throws.
    method String() returns (r: Option<Text>)
      requires Valid()
      modifies this
      ensures Valid() && cursor >= old(cursor)
      ensures r.Some? <==> StringLeft(old(Rest())).Some?
      ensures r.Some? ==> cursor > old(cursor) && StringLeft(old(Rest())).value == (r.value, Rest())
    {
      var start := cursor;
      var ok := Token();
      if !ok { return None; }
      TokenIs(source, start, cursor);
      r := Some(Unquote(source[start..cursor]));
    }

    // value(depth)
    method Value(depth: nat) returns (ok: bool)
      requires Valid()
      modifies this
      ensures Valid() && cursor >= old(cursor)
      ensures ok <==> ParseValue(old(Rest()), depth).Some?
      ensures ok ==> Rest() == ParseValue(old(Rest()), depth).value.rest && cursor > old(cursor)
      decreases |source| - cursor, 2
    {
      if depth > MAX_DEPTH { return false; }
      Whitespace();
      if At(QUOTE) {
        var s := String();
        return s.Some?;
      }
      if At(OPEN_BRACE) {
        ok := Object(depth);
        return;
      }
      if At(OPEN_BRACKET) {
        ok := Array(depth);
        return;
      }
      ok := Scalar();
    }

    // The three literals, then the number pattern at the cursor.
    method Scalar() returns (ok: bool)
      requires Valid()
      modifies this
      ensures Valid() && cursor >= old(cursor)
      ensures ParseLiteral(old(Rest())).Some? ==> ok && Rest() == ParseLiteral(old(Rest())).value.rest
      ensures ParseLiteral(old(Rest())).None? ==>
        (ok <==> ParseNumber(old(Rest())).Some?) && (ok ==> Rest() == ParseNumber(old(Rest())).value.rest)
    {
      ok := OneLiteral();
      if !ok { ok := OneNumber(); }
    }

    method OneNumber() returns (ok: bool)
      requires Valid()
      modifies this
      ensures Valid() && cursor >= old(cursor)
      ensures ok <==> ParseNumber(old(Rest())).Some?
      ensures ok ==> Rest() == ParseNumber(old(Rest())).value.rest
    {
      var number := ParseNumber(source[cursor..]);
      ok := number.Some?;
      if ok {
        NumberSound(Rest());
        cursor := |source| - |number.value.rest|;
        assert Rest() == number.value.rest;
      }
    }

    method OneLiteral() returns (ok: bool)
      requires Valid()
      modifies this
      ensures Valid() && cursor >= old(cursor)
      ensures ok <==> ParseLiteral(old(Rest())).Some?
      ensures if ok then Rest() == ParseLiteral(old(Rest())).value.rest else cursor == old(cursor)
    {
      ghost var before := Rest();
      var literals := [True, False, Null];
      for i := 0 to |literals|
        invariant cursor == old(cursor)
        invariant forall j :: 0 <= j < i ==> !(literals[j].Print() <= before)
      {
        var literal := literals[i].Print();
        if literal <= source[cursor..] {
          cursor := cursor + |literal|;
          assert Rest() == before[|literal|..] && before == literal + Rest();
          LiteralComplete(literals[i], Rest());
          return true;
        }
      }
      assert literals[0] == True && literals[1] == False && literals[2] == Null;
      ok := false;
    }

    method Array(depth: nat) returns (ok: bool)
      requires Valid() && StartsWith(Rest(), OPEN_BRACKET)
      modifies this
      ensures Valid() && cursor > old(cursor)
      ensures ok <==> ParseArray(old(Rest()), depth).Some?
      ensures ok ==> Rest() == ParseArray(old(Rest()), depth).value.rest
      decreases |source| - cursor, 1
    {
      ArrayLeft(Rest(), depth);
      ghost var text := Rest()[1..];
      cursor := cursor + 1;
      assert Rest() == text;
      Whitespace();
      if At(CLOSE_BRACKET) {
        cursor := cursor + 1;
        return true;
      }
      ok := Items(depth + 1);
    }

    // After an element: the closing mark, or a comma before another one.
    method Separator(closing: nat) returns (ok: bool, closed: bool)
      requires Valid()
      modifies this
      ensures Valid()
      ensures closed <==> StartsWith(old(Rest()), closing)
      ensures ok <==> closed || StartsWith(old(Rest()), COMMA)
      ensures ok ==> cursor == old(cursor) + 1 && Rest() == old(Rest())[1..]
      ensures !ok ==> cursor == old(cursor)
    {
      closed := At(closing);
      if closed {
        cursor := cursor + 1;
        return true, true;
      }
      ok := Character(COMMA);
    }

    // Items separated by commas, up to the closing bracket.
    method Items(depth: nat) returns (ok: bool)
      requires Valid()
      modifies this
      ensures Valid() && cursor >= old(cursor)
      ensures ok <==> ItemsLeft(old(Rest()), depth).Some?
      ensures ok ==> Rest() == ItemsLeft(old(Rest()), depth).value
      decreases |source| - cursor, 3
    {
      ghost var left := ItemsLeft(Rest(), depth);
      while true
        invariant Valid() && cursor >= old(cursor)
        invariant ItemsLeft(Rest(), depth) == left
        decreases |source| - cursor
      {
        PaddedIsValue(Rest(), depth);
        ItemsStep(Rest(), depth);
        ok := Value(depth);
        if !ok { return; }
        Whitespace();
        var closed;
        ok, closed := Separator(CLOSE_BRACKET);
        if !ok || closed { return; }
      }
    }

    method Object(depth: nat) returns (ok: bool)
      requires Valid() && StartsWith(Rest(), OPEN_BRACE)
      modifies this
      ensures Valid() && cursor > old(cursor)
      ensures ok <==> ParseObject(old(Rest()), depth).Some?
      ensures ok ==> Rest() == ParseObject(old(Rest()), depth).value.rest
      decreases |source| - cursor, 1
    {
      ObjectLeft(Rest(), depth);
      ghost var text := Rest()[1..];
      cursor := cursor + 1;
      assert Rest() == text;
      Whitespace();
      if At(CLOSE_BRACE) {
        cursor := cursor + 1;
        return true;
      }
      ok := Members(depth + 1);
    }

    // Members separated by commas, up to the closing brace; `seen` holds the names so far.
    method Members(depth: nat) returns (ok: bool)
      requires Valid()
      modifies this
      ensures Valid() && cursor >= old(cursor)
      ensures ok <==> MembersLeft(old(Rest()), depth, {}).Some?
      ensures ok ==> Rest() == MembersLeft(old(Rest()), depth, {}).value
      decreases |source| - cursor, 4
    {
      ghost var left := MembersLeft(Rest(), depth, {});
      var seen: set<Text> := {};
      while true
        invariant Valid() && cursor >= old(cursor)
        invariant MembersLeft(Rest(), depth, seen) == left
        decreases |source| - cursor
      {
        MembersStep(Rest(), depth, seen);
        var key := Entry(depth, seen);
        if key.None? { return false; }
        seen := seen + {key.value};
        var closed;
        ok, closed := Separator(CLOSE_BRACE);
        if !ok || closed { return; }
      }
    }

    // A name that was not seen before, up to its colon.
    method Name(seen: set<Text>) returns (key: Option<Text>)
      requires Valid()
      modifies this
      ensures Valid() && cursor >= old(cursor)
      ensures key.Some? <==> NameLeft(old(Rest()), seen).Some?
      ensures key.Some? ==> cursor > old(cursor) && NameLeft(old(Rest()), seen).value == (key.value, Rest())
    {
      Whitespace();
      key := String();
      if key.Some? && key.value !in seen {
        Whitespace();
        var ok := Character(COLON);
        if !ok { key := None; }
      } else {
        key := None;
      }
    }

    // One member, up to what follows its value.
    method Entry(depth: nat, seen: set<Text>) returns (key: Option<Text>)
      requires Valid()
      modifies this
      ensures Valid() && cursor >= old(cursor)
      ensures key.Some? <==> EntryLeft(old(Rest()), depth, seen).Some?
      ensures key.Some? ==> cursor > old(cursor) && EntryLeft(old(Rest()), depth, seen).value == (key.value, Rest())
      decreases |source| - cursor, 3
    {
      EntryStep(Rest(), depth, seen);
      key := Name(seen);
      if key.None? { return; }
      PaddedIsValue(Rest(), depth);
      var ok := Value(depth);
      if !ok { return None; }
      Whitespace();
    }
  }

  // The token between the cursors is the string that was read.
  lemma TokenIs(source: Text, start: nat, end: nat)
    requires start <= end <= |source| && ParseString(source[start..]).Some?
    requires source[end..] == ParseString(source[start..]).value.rest
    ensures var token, pieces := source[start..end], ParseString(source[start..]).value.tree;
      ParseString(token).Some? && ParseString(token).value.tree == pieces && ValidPieces(pieces)
    ensures end > start
  {
    var p := ParseString(source[start..]).value;
    StringSound(source[start..]);
    assert source[start..] == source[start..end] + source[end..];
    assert source[start..][..|source[start..]| - |p.rest|] == PrintString(p.tree);
    assert source[start..end] == PrintString(p.tree);
    StringComplete(p.tree, []);
    assert PrintString(p.tree) + [] == PrintString(p.tree);
  }

  // rejectDuplicateKeys: accepts exactly the JSON texts in which no object repeats a name and
  // nesting is at most MAX_DEPTH deep.
  method RejectDuplicateKeys(source: Text) returns (ok: bool)
    ensures ok <==> StrictJson(source)
  {
    ReadsStrictJson(source);
    var scanner := new Scanner(source);
    assert scanner.Rest() == source;
    PaddedIsValue(source, 0);
    ok := scanner.Value(0);
    if !ok { return; }
    scanner.Whitespace();
    assert scanner.Rest() == [] <==> scanner.cursor == |source|;
    ok := scanner.cursor == |source|;
  }

  // An object all of whose names are allowed.
  predicate ExactObject(node: Node, allowed: set<Text>)
    requires ValidNode(node)
  {
    node.EmptyObject? || (node.ObjectNode? && forall i :: 0 <= i < |KeysOf(node.members)| ==> KeysOf(node.members)[i] in allowed)
  }

  ghost predicate IsExactObject(source: Text, node: Node, allowed: set<Text>) {
    exists p :: IsStrict(p) && Print(p) == source && p.node == node && ExactObject(p.node, allowed)
  }

  // parseExactObject on decoded text: the one object the text stands for, if its names are allowed.
  method ParseExactObject(source: Text, allowed: set<Text>) returns (r: Option<Node>)
    ensures r.Some? ==> IsExactObject(source, r.value, allowed)
    ensures r.None? ==> forall node :: !IsExactObject(source, node, allowed)
  {
    ReadsStrictJson(source);
    var ok := RejectDuplicateKeys(source);
    if !ok { return None; }
    ghost var p :| IsStrict(p) && Print(p) == source;
    var parsed := ParsePadded(source, 0).value.tree;
    r := if ExactObject(parsed.node, allowed) then Some(parsed.node) else None;
  }
}
