/**
 The nesting check made on untrusted JSON before it is parsed: a scanner that knows strings and
 escapes but no grammar, and what it decides about every printed JSON tree.
 */
module JsonDepth {

  const MAX_JSON_DEPTH: nat := 32

  // ----- The scanner -----

  datatype Scan = Scanning(depth: nat, inString: bool, escaped: bool) | Rejected

  function Step(scan: Scan, byte: char): Scan {
    if scan.Rejected? then Rejected
    else if scan.inString then
      if scan.escaped then scan.(escaped := false)
      else if byte == '\\' then scan.(escaped := true)
      else if byte == '"' then scan.(inString := false)
      else scan
    else
      match byte
      case '"' => scan.(inString := true)
      case '{' => Open(scan)
      case '[' => Open(scan)
      case '}' => Close(scan)
      case ']' => Close(scan)
      case _ => scan
  }

  function Open(scan: Scan): Scan
    requires scan.Scanning?
  {
    if scan.depth + 1 > MAX_JSON_DEPTH then Rejected else scan.(depth := scan.depth + 1)
  }

  function Close(scan: Scan): Scan
    requires scan.Scanning?
  {
    scan.(depth := if scan.depth == 0 then 0 else scan.depth - 1)
  }

  function Run(scan: Scan, body: string): Scan {
    if body == [] then scan else Step(Run(scan, body[..|body| - 1]), body[|body| - 1])
  }

  const START: Scan := Scanning(0, false, false)

  lemma {:induction false} RunAppend(scan: Scan, a: string, b: string)
    ensures Run(scan, a + b) == Run(Run(scan, a), b)
  {
    if b == [] {
      assert a + b == a;
    } else {
      RunAppend(scan, a, b[..|b| - 1]);
      assert (a + b)[..|a + b| - 1] == a + b[..|b| - 1];
    }
  }

  lemma {:induction false} RejectedStays(body: string)
    ensures Run(Rejected, body) == Rejected
  {
    if body != [] {
      RejectedStays(body[..|body| - 1]);
    }
  }

  method ValidateJsonDepth(body: string) returns (accepted: bool)
    ensures accepted <==> Run(START, body).Scanning?
  {
    var depth: nat := 0;
    var inString := false;
    var escaped := false;
    assert body[..|body|] == body;
    for i := 0 to |body|
      invariant Run(START, body[..i]) == Scanning(depth, inString, escaped)
    {
      var byte := body[i];
      assert body[..i + 1][..i] == body[..i];
      if inString {
        if escaped {
          escaped := false;
        } else if byte == '\\' {
          escaped := true;
        } else if byte == '"' {
          inString := false;
        }
        continue;
      }
      match byte {
        case '"' => inString := true;
        case '{' | '[' =>
          depth := depth + 1;
          if depth > MAX_JSON_DEPTH {
            RunAppend(START, body[..i + 1], body[i + 1..]);
            RejectedStays(body[i + 1..]);
            assert body[..i + 1] + body[i + 1..] == body;
            return false;
          }
        case '}' | ']' =>
          depth := if depth == 0 then 0 else depth - 1;
        case _ =>
      }
    }
    return true;
  }

  // ----- JSON trees and their texts -----

  /** One unit of a string literal: a character, or a backslash with the character it escapes. */
  datatype Unit = Plain(c: char) | Escape(c: char)

  datatype Json =
    | Scalar(text: string)
    | Text(units: seq<Unit>)
    | Array(blank: string, items: Items)
    | Object(blank: string, members: Members)
    | Padded(before: string, value: Json, after: string)

  datatype Items = NoItems | Item(head: Json, tail: Items)

  datatype Members =
    | NoMembers
    | Member(before: string, key: seq<Unit>, after: string, value: Json, tail: Members)

  function PrintUnits(units: seq<Unit>): string {
    if units == [] then []
    else
      var last := units[|units| - 1];
      PrintUnits(units[..|units| - 1]) + (if last.Plain? then [last.c] else ['\\', last.c])
  }

  function PrintText(units: seq<Unit>): string { ['"'] + PrintUnits(units) + ['"'] }

  function Print(json: Json): string {
    match json
    case Scalar(text) => text
    case Text(units) => PrintText(units)
    case Array(blank, items) => ['['] + (blank + PrintItems(items, true)) + [']']
    case Object(blank, members) => ['{'] + (blank + PrintMembers(members, true)) + ['}']
    case Padded(before, value, after) => before + Print(value) + after
  }

  function PrintItems(items: Items, first: bool): string {
    match items
    case NoItems => []
    case Item(head, tail) => (if first then [] else [',']) + Print(head) + PrintItems(tail, false)
  }

  function PrintMembers(members: Members, first: bool): string {
    match members
    case NoMembers => []
    case Member(before, key, after, value, tail) =>
      ((if first then [] else [',']) + before) + PrintText(key) + (after + [':'])
      + Print(value) + PrintMembers(tail, false)
  }

  /** No quote and no bracket: numbers, literals, blanks and separators. */
  predicate Neutral(s: string) {
    forall i :: 0 <= i < |s| ==> s[i] !in {'"', '{', '[', '}', ']'}
  }

  /** In a literal a quote or a backslash only appears escaped; everything else may appear. */
  predicate LegalUnits(units: seq<Unit>) {
    forall i :: 0 <= i < |units| ==> units[i].Plain? ==> units[i].c != '"' && units[i].c != '\\'
  }

  predicate Legal(json: Json) {
    match json
    case Scalar(text) => Neutral(text)
    case Text(units) => LegalUnits(units)
    case Array(blank, items) => Neutral(blank) && LegalItems(items)
    case Object(blank, members) => Neutral(blank) && LegalMembers(members)
    case Padded(before, value, after) => Neutral(before) && Legal(value) && Neutral(after)
  }

  predicate LegalItems(items: Items) {
    items.Item? ==> Legal(items.head) && LegalItems(items.tail)
  }

  predicate LegalMembers(members: Members) {
    members.Member? ==>
      && Neutral(members.before) && LegalUnits(members.key) && Neutral(members.after)
      && Legal(members.value) && LegalMembers(members.tail)
  }

  function Max(a: nat, b: nat): nat { if a < b then b else a }

  function Depth(json: Json): nat {
    match json
    case Scalar(_) => 0
    case Text(_) => 0
    case Array(_, items) => 1 + ItemsDepth(items)
    case Object(_, members) => 1 + MembersDepth(members)
    case Padded(_, value, _) => Depth(value)
  }

  function ItemsDepth(items: Items): nat {
    match items
    case NoItems => 0
    case Item(head, tail) => Max(Depth(head), ItemsDepth(tail))
  }

  function MembersDepth(members: Members): nat {
    match members
    case NoMembers => 0
    case Member(_, _, _, value, tail) => Max(Depth(value), MembersDepth(tail))
  }

  // ----- What the scanner decides about them -----

  /** What scanning a text of the given depth does from inside d open brackets. */
  function After(d: nat, depth: nat): Scan {
    if d + depth > MAX_JSON_DEPTH then Rejected else Scanning(d, false, false)
  }

  lemma {:induction false} NeutralRuns(d: nat, s: string)
    requires Neutral(s)
    ensures Run(Scanning(d, false, false), s) == Scanning(d, false, false)
  {
    if s != [] {
      NeutralRuns(d, s[..|s| - 1]);
    }
  }

  lemma OneUnit(d: nat, unit: Unit)
    requires unit.Plain? ==> unit.c != '"' && unit.c != '\\'
    ensures Run(Scanning(d, true, false), if unit.Plain? then [unit.c] else ['\\', unit.c]) == Scanning(d, true, false)
  {
    var scan := Scanning(d, true, false);
    assert [unit.c][..0] == [] && ['\\'][..0] == [];
    RunAppend(scan, ['\\'], [unit.c]);
    assert ['\\'] + [unit.c] == ['\\', unit.c];
  }

  lemma {:induction false} UnitsRun(d: nat, units: seq<Unit>)
    requires LegalUnits(units)
    ensures Run(Scanning(d, true, false), PrintUnits(units)) == Scanning(d, true, false)
  {
    if units != [] {
      var front, last := units[..|units| - 1], units[|units| - 1];
      var printed := if last.Plain? then [last.c] else ['\\', last.c];
      UnitsRun(d, front);
      RunAppend(Scanning(d, true, false), PrintUnits(front), printed);
      OneUnit(d, last);
    }
  }

  lemma TextRuns(d: nat, units: seq<Unit>)
    requires LegalUnits(units)
    ensures Run(Scanning(d, false, false), PrintText(units)) == Scanning(d, false, false)
  {
    var start := Scanning(d, false, false);
    assert ['"'][..0] == [];
    UnitsRun(d, units);
    RunAppend(start, ['"'], PrintUnits(units));
    RunAppend(start, ['"'] + PrintUnits(units), ['"']);
  }

  /** Run over three parts in a row. */
  lemma RunParts(scan: Scan, a: string, b: string, c: string)
    ensures Run(scan, a + b + c) == Run(Run(Run(scan, a), b), c)
  {
    RunAppend(scan, a, b);
    RunAppend(scan, a + b, c);
  }

  lemma BracketsRun(d: nat, open: char, inner: string, close: char, depth: nat)
    requires (open, close) in {('[', ']'), ('{', '}')} && d <= MAX_JSON_DEPTH
    requires d + 1 <= MAX_JSON_DEPTH ==> Run(Scanning(d + 1, false, false), inner) == After(d + 1, depth)
    ensures Run(Scanning(d, false, false), [open] + inner + [close]) == After(d, 1 + depth)
  {
    var start := Scanning(d, false, false);
    RunParts(start, [open], inner, [close]);
    assert [open][..0] == [] && [close][..0] == [];
    RejectedStays(inner);
    RejectedStays([close]);
  }

  lemma {:induction false} ItemsRun(d: nat, items: Items, first: bool)
    requires LegalItems(items) && d <= MAX_JSON_DEPTH
    ensures Run(Scanning(d, false, false), PrintItems(items, first)) == After(d, ItemsDepth(items))
    decreases items
  {
    if items.Item? {
      var comma := if first then [] else [','];
      NeutralRuns(d, comma);
      JsonRuns(d, items.head);
      ItemsRun(d, items.tail, false);
      RejectedStays(PrintItems(items.tail, false));
      RunParts(Scanning(d, false, false), comma, Print(items.head), PrintItems(items.tail, false));
    }
  }

  lemma {:induction false} JsonRuns(d: nat, json: Json)
    requires Legal(json) && d <= MAX_JSON_DEPTH
    ensures Run(Scanning(d, false, false), Print(json)) == After(d, Depth(json))
    decreases json
  {
    hide Run;
    var start := Scanning(d, false, false);
    match json
    case Scalar(text) =>
      NeutralRuns(d, text);
    case Text(units) =>
      TextRuns(d, units);
    case Array(blank, items) =>
      if d < MAX_JSON_DEPTH {
        NeutralRuns(d + 1, blank);
        ItemsRun(d + 1, items, true);
        RunAppend(Scanning(d + 1, false, false), blank, PrintItems(items, true));
      }
      BracketsRun(d, '[', blank + PrintItems(items, true), ']', ItemsDepth(items));
    case Object(blank, members) =>
      if d < MAX_JSON_DEPTH {
        NeutralRuns(d + 1, blank);
        MembersRun(d + 1, members, true);
        RunAppend(Scanning(d + 1, false, false), blank, PrintMembers(members, true));
      }
      BracketsRun(d, '{', blank + PrintMembers(members, true), '}', MembersDepth(members));
    case Padded(before, value, after) =>
      NeutralRuns(d, before);
      JsonRuns(d, value);
      NeutralRuns(d, after);
      RejectedStays(after);
      RunParts(start, before, Print(value), after);
  }

  lemma {:induction false} MembersRun(d: nat, members: Members, first: bool)
    requires LegalMembers(members) && d <= MAX_JSON_DEPTH
    ensures Run(Scanning(d, false, false), PrintMembers(members, first)) == After(d, MembersDepth(members))
    decreases members
  {
    if members.Member? {
      var start := Scanning(d, false, false);
      var lead := (if first then [] else [',']) + members.before;
      var colon := members.after + [':'];
      var rest := PrintMembers(members.tail, false);
      NeutralRuns(d, lead);
      TextRuns(d, members.key);
      NeutralRuns(d, colon);
      RunParts(start, lead, PrintText(members.key), colon);
      JsonRuns(d, members.value);
      MembersRun(d, members.tail, false);
      RejectedStays(rest);
      RunParts(start, lead + PrintText(members.key) + colon, Print(members.value), rest);
    }
  }

  /** Whatever brackets, quotes and backslashes its strings hold, a printed tree is accepted exactly
      when it nests at most 32 deep. */
  lemma AcceptedIffShallow(json: Json)
    requires Legal(json)
    ensures Run(START, Print(json)).Scanning? <==> Depth(json) <= MAX_JSON_DEPTH
  {
    JsonRuns(0, json);
  }
}
