/**
The one-pass nesting check on a JSON text (src/stratum/validator.cpp, within_depth) against the nesting depth of the
value that the text spells, in the grammar of sections 2 to 7 of RFC 8259.
*/
module JsonDepth {
  import opened Options

  // ---------- values as they are spelled ----------

  /** A character of a string: as it stands, or after a backslash. The hex digits of a \u escape stand as they are. */
  datatype Piece = Plain(c: char) | Escaped(c: char)

  /** A value with all its insignificant whitespace. The spelling of literals is left open, except that it has no
      quotes and brackets. */
  datatype Value =
    | Literal(text: string)  // a number, true, false or null
    | Text(pieces: seq<Piece>)
    | Array(blank: string, items: Items)
    | Object(blank: string, members: Members)

  datatype Items = NoItems | Item(before: string, value: Value, after: string, rest: Items)

  datatype Members =
    | NoMembers
    | Member(before: string, name: seq<Piece>, afterName: string, beforeValue: string, value: Value, after: string,
             rest: Members)

  predicate Blank(text: string) {
    forall i :: 0 <= i < |text| ==> text[i] in " \t\n\r"
  }

  /** A character that means nothing to the nesting outside strings. */
  predicate Inert(c: char) {
    c != '"' && c != '{' && c != '[' && c != '}' && c != ']'
  }

  ghost predicate WellFormed(v: Value) {
    match v
    case Literal(text) => forall i :: 0 <= i < |text| ==> Inert(text[i])
    case Text(pieces) => WellFormedText(pieces)
    case Array(blank, items) => Blank(blank) && WellFormedItems(items)
    case Object(blank, members) => Blank(blank) && WellFormedMembers(members)
  }

  ghost predicate WellFormedText(pieces: seq<Piece>) {
    forall i :: 0 <= i < |pieces| && pieces[i].Plain? ==> pieces[i].c != '"' && pieces[i].c != '\\'
  }

  ghost predicate WellFormedItems(items: Items) {
    match items
    case NoItems => true
    case Item(before, value, after, rest) =>
      Blank(before) && WellFormed(value) && Blank(after) && WellFormedItems(rest)
  }

  ghost predicate WellFormedMembers(members: Members) {
    match members
    case NoMembers => true
    case Member(before, name, afterName, beforeValue, value, after, rest) =>
      && Blank(before) && WellFormedText(name) && Blank(afterName) && Blank(beforeValue)
      && WellFormed(value) && Blank(after) && WellFormedMembers(rest)
  }

  ghost function Spell(v: Value): string {
    match v
    case Literal(text) => text
    case Text(pieces) => Quote(pieces)
    case Array(blank, items) => "[" + (blank + (SpellItems(items) + "]"))
    case Object(blank, members) => "{" + (blank + (SpellMembers(members) + "}"))
  }

  ghost function Quote(pieces: seq<Piece>): string {
    "\"" + (SpellPieces(pieces) + "\"")
  }

  ghost function SpellPieces(pieces: seq<Piece>): string {
    if pieces == [] then ""
    else (if pieces[0].Plain? then [pieces[0].c] else ['\\', pieces[0].c]) + SpellPieces(pieces[1..])
  }

  ghost function SpellItems(items: Items): string {
    match items
    case NoItems => ""
    case Item(before, value, after, rest) =>
      before + (Spell(value) + (after + (if rest.NoItems? then "" else "," + SpellItems(rest))))
  }

  ghost function SpellMembers(members: Members): string {
    match members
    case NoMembers => ""
    case Member(before, name, afterName, beforeValue, value, after, rest) =>
      before + (Quote(name) + ((afterName + ":" + beforeValue) +
      (Spell(value) + (after + (if rest.NoMembers? then "" else "," + SpellMembers(rest))))))
  }

  /** The nesting depth: how many arrays and objects lie inside each other. */
  ghost function Depth(v: Value): nat {
    match v
    case Literal(_) => 0
    case Text(_) => 0
    case Array(_, items) => 1 + ItemsDepth(items)
    case Object(_, members) => 1 + MembersDepth(members)
  }

  ghost function ItemsDepth(items: Items): nat {
    match items
    case NoItems => 0
    case Item(_, value, _, rest) => Max(Depth(value), ItemsDepth(rest))
  }

  ghost function MembersDepth(members: Members): nat {
    match members
    case NoMembers => 0
    case Member(_, _, _, _, value, _, rest) => Max(Depth(value), MembersDepth(rest))
  }

  function Max(a: int, b: int): int {
    if a < b then b else a
  }

  // ---------- the scanner ----------

  datatype Scanner = Scanner(depth: nat, inString: bool, escaped: bool)

  /** One character; nothing is left when the depth passes the maximum. */
  function Step(s: Scanner, c: char, maximum: int): Option<Scanner> {
    if s.inString then
      if s.escaped then Some(s.(escaped := false))
      else if c == '\\' then Some(s.(escaped := true))
      else if c == '"' then Some(s.(inString := false))
      else Some(s)
    else if c == '"' then Some(s.(inString := true))
    else if c == '{' || c == '[' then
      if s.depth + 1 > maximum then None else Some(s.(depth := s.depth + 1))
    else if (c == '}' || c == ']') && s.depth > 0 then Some(s.(depth := s.depth - 1))
    else Some(s)
  }

  function Scan(s: Scanner, text: string, maximum: int): Option<Scanner>
    decreases |text|
  {
    if text == "" then Some(s)
    else
      var next := Step(s, text[0], maximum);
      if next.None? then None else Scan(next.value, text[1..], maximum)
  }

  const START := Scanner(0, false, false)

  predicate WithinDepth(text: string, maximum: int) {
    Scan(START, text, maximum).Some?
  }

  /** The check as a loop. */
  method CheckDepth(text: string, maximum: int) returns (ok: bool)
    ensures ok <==> WithinDepth(text, maximum)
  {
    var depth, inString, escaped := 0, false, false;
    for i := 0 to |text|
      invariant depth >= 0
      invariant Scan(START, text, maximum) == Scan(Scanner(depth, inString, escaped), text[i..], maximum)
    {
      var c := text[i];
      assert text[i..][0] == c && text[i..][1..] == text[i + 1..];
      if inString {
        if escaped {
          escaped := false;
        } else if c == '\\' {
          escaped := true;
        } else if c == '"' {
          inString := false;
        }
        continue;
      }
      if c == '"' {
        inString := true;
      } else if c == '{' || c == '[' {
        depth := depth + 1;
        if depth > maximum {
          return false;
        }
      } else if (c == '}' || c == ']') && depth > 0 {
        depth := depth - 1;
      }
    }
    ok := true;
  }

  lemma {:induction false} ScanConcat(s: Scanner, first: string, second: string, maximum: int)
    ensures Scan(s, first + second, maximum)
            == var next := Scan(s, first, maximum); if next.None? then None else Scan(next.value, second, maximum)
    decreases |first|
  {
    if first == "" {
      assert first + second == second;
    } else {
      assert (first + second)[1..] == first[1..] + second;
      var next := Step(s, first[0], maximum);
      if next.Some? {
        ScanConcat(next.value, first[1..], second, maximum);
      }
    }
  }

  // ---------- what each part of a value does to the scanner ----------

  function Outside(depth: nat): Scanner {
    Scanner(depth, false, false)
  }

  lemma {:induction false} ScanInert(depth: nat, text: string, maximum: int)
    requires forall i :: 0 <= i < |text| ==> Inert(text[i])
    ensures Scan(Outside(depth), text, maximum) == Some(Outside(depth))
    decreases |text|
  {
    if text != "" {
      ScanInert(depth, text[1..], maximum);
    }
  }

  lemma ScanOpen(depth: nat, c: char, maximum: int)
    requires c == '[' || c == '{'
    ensures Scan(Outside(depth), [c], maximum) == if depth + 1 > maximum then None else Some(Outside(depth + 1))
  {
    assert [c][1..] == "";
  }

  lemma ScanClose(depth: nat, c: char, maximum: int)
    requires (c == ']' || c == '}') && depth > 0
    ensures Scan(Outside(depth), [c], maximum) == Some(Outside(depth - 1))
  {
    assert [c][1..] == "";
  }

  /** Whatever a string holds, the scanner comes out of it at the same depth. */
  lemma {:induction false} ScanPieces(depth: nat, pieces: seq<Piece>, maximum: int)
    requires WellFormedText(pieces)
    ensures Scan(Scanner(depth, true, false), SpellPieces(pieces), maximum) == Some(Scanner(depth, true, false))
  {
    if pieces != [] {
      ScanPieces(depth, pieces[1..], maximum);
      var inside := Scanner(depth, true, false);
      var first := if pieces[0].Plain? then [pieces[0].c] else ['\\', pieces[0].c];
      if pieces[0].Plain? {
        assert first[1..] == "";
      } else {
        assert first[1..] == [pieces[0].c] && [pieces[0].c][1..] == "";
        assert Scan(Scanner(depth, true, true), [pieces[0].c], maximum) == Some(inside);
      }
      assert Scan(inside, first, maximum) == Some(inside);
      ScanConcat(inside, first, SpellPieces(pieces[1..]), maximum);
    }
  }

  lemma ScanQuote(depth: nat, pieces: seq<Piece>, maximum: int)
    requires WellFormedText(pieces)
    ensures Scan(Outside(depth), Quote(pieces), maximum) == Some(Outside(depth))
  {
    var inside := Scanner(depth, true, false);
    ScanPieces(depth, pieces, maximum);
    ScanConcat(inside, SpellPieces(pieces), "\"", maximum);
    assert "\""[1..] == "";
    assert Scan(inside, "\"", maximum) == Some(Outside(depth));
    ScanConcat(Outside(depth), "\"", SpellPieces(pieces) + "\"", maximum);
    assert Scan(Outside(depth), "\"", maximum) == Some(inside);
  }

  /** What the scanner does with a part of nesting depth `inner`. */
  ghost function Through(depth: nat, inner: nat, maximum: int): Option<Scanner> {
    if inner == 0 || depth + inner <= maximum then Some(Outside(depth)) else None
  }

  lemma {:induction false} ScanValue(depth: nat, v: Value, maximum: int)
    requires WellFormed(v)
    ensures Scan(Outside(depth), Spell(v), maximum) == Through(depth, Depth(v), maximum)
    decreases v
  {
    match v {
      case Literal(text) => ScanInert(depth, text, maximum);
      case Text(pieces) => ScanQuote(depth, pieces, maximum);
      case Array(blank, items) =>
        ScanOpen(depth, '[', maximum);
        ScanConcat(Outside(depth), "[", blank + (SpellItems(items) + "]"), maximum);
        if depth + 1 <= maximum {
          ScanItems(depth + 1, items, maximum);
          ScanBody(depth + 1, blank, SpellItems(items), ']', ItemsDepth(items), maximum);
        }
      case Object(blank, members) =>
        ScanOpen(depth, '{', maximum);
        ScanConcat(Outside(depth), "{", blank + (SpellMembers(members) + "}"), maximum);
        if depth + 1 <= maximum {
          ScanMembers(depth + 1, members, maximum);
          ScanBody(depth + 1, blank, SpellMembers(members), '}', MembersDepth(members), maximum);
        }
    }
  }

  /** The inside of an array or object, and its closing bracket. */
  lemma ScanBody(depth: nat, blank: string, body: string, close: char, inner: nat, maximum: int)
    requires depth > 0 && Blank(blank) && (close == ']' || close == '}')
    requires Scan(Outside(depth), body, maximum) == Through(depth, inner, maximum)
    ensures Scan(Outside(depth), blank + (body + [close]), maximum)
            == if inner == 0 || depth + inner <= maximum then Some(Outside(depth - 1)) else None
  {
    ScanInert(depth, blank, maximum);
    ScanConcat(Outside(depth), blank, body + [close], maximum);
    ScanConcat(Outside(depth), body, [close], maximum);
    ScanClose(depth, close, maximum);
  }

  /** A value, what stands behind it, and the rest of the list. */
  lemma ScanThenRest(depth: nat, value: string, after: string, rest: string, inner: nat, others: nat, maximum: int)
    requires Scan(Outside(depth), value, maximum) == Through(depth, inner, maximum) && Blank(after)
    requires Scan(Outside(depth), rest, maximum) == Through(depth, others, maximum)
    ensures Scan(Outside(depth), value + (after + rest), maximum) == Through(depth, Max(inner, others), maximum)
  {
    ScanConcat(Outside(depth), value, after + rest, maximum);
    ScanInert(depth, after, maximum);
    ScanConcat(Outside(depth), after, rest, maximum);
  }

  lemma ScanComma(depth: nat, rest: string, others: nat, maximum: int)
    requires Scan(Outside(depth), rest, maximum) == Through(depth, others, maximum)
    ensures Scan(Outside(depth), "," + rest, maximum) == Through(depth, others, maximum)
  {
    ScanInert(depth, ",", maximum);
    ScanConcat(Outside(depth), ",", rest, maximum);
  }

  lemma {:induction false} ScanItems(depth: nat, items: Items, maximum: int)
    requires WellFormedItems(items)
    ensures Scan(Outside(depth), SpellItems(items), maximum) == Through(depth, ItemsDepth(items), maximum)
    decreases items
  {
    if items.Item? {
      var rest := if items.rest.NoItems? then "" else "," + SpellItems(items.rest);
      ScanItems(depth, items.rest, maximum);
      ScanComma(depth, SpellItems(items.rest), ItemsDepth(items.rest), maximum);
      ScanValue(depth, items.value, maximum);
      ScanThenRest(depth, Spell(items.value), items.after, rest, Depth(items.value), ItemsDepth(items.rest), maximum);
      ScanInert(depth, items.before, maximum);
      ScanConcat(Outside(depth), items.before, Spell(items.value) + (items.after + rest), maximum);
    }
  }

  /** The name of a member and its colon change nothing. */
  lemma ScanName(depth: nat, before: string, name: seq<Piece>, colon: string, value: string, maximum: int)
    requires Blank(before) && WellFormedText(name) && forall i :: 0 <= i < |colon| ==> Inert(colon[i])
    ensures Scan(Outside(depth), before + (Quote(name) + (colon + value)), maximum)
            == Scan(Outside(depth), value, maximum)
  {
    ScanInert(depth, before, maximum);
    ScanConcat(Outside(depth), before, Quote(name) + (colon + value), maximum);
    ScanQuote(depth, name, maximum);
    ScanConcat(Outside(depth), Quote(name), colon + value, maximum);
    ScanInert(depth, colon, maximum);
    ScanConcat(Outside(depth), colon, value, maximum);
  }

  lemma {:induction false} ScanMembers(depth: nat, members: Members, maximum: int)
    requires WellFormedMembers(members)
    ensures Scan(Outside(depth), SpellMembers(members), maximum) == Through(depth, MembersDepth(members), maximum)
    decreases members
  {
    if members.Member? {
      var rest := if members.rest.NoMembers? then "" else "," + SpellMembers(members.rest);
      ScanMembers(depth, members.rest, maximum);
      ScanComma(depth, SpellMembers(members.rest), MembersDepth(members.rest), maximum);
      ScanValue(depth, members.value, maximum);
      var value := Spell(members.value) + (members.after + rest);
      ScanThenRest(depth, Spell(members.value), members.after, rest, Depth(members.value),
                   MembersDepth(members.rest), maximum);
      ScanName(depth, members.before, members.name, members.afterName + ":" + members.beforeValue, value, maximum);
    }
  }

  /** For every JSON text, the check passes exactly when the value is nested no deeper than the maximum. A negative
      maximum counts as zero. */
  lemma DepthExact(before: string, v: Value, after: string, maximum: int)
    requires Blank(before) && WellFormed(v) && Blank(after)
    ensures WithinDepth(before + (Spell(v) + after), maximum) <==> Depth(v) <= Max(maximum, 0)
  {
    ScanInert(0, before, maximum);
    ScanConcat(START, before, Spell(v) + after, maximum);
    ScanValue(0, v, maximum);
    ScanConcat(START, Spell(v), after, maximum);
    ScanInert(0, after, maximum);
  }
}
