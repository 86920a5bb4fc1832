// `jsonObjects`: the brace and quote scanner that finds JSON objects in a model's answer, and `parseDecision`.
module JsonScanner {
  import opened Common

  /** What the scanner knows after a prefix: `pending` is the text since the open brace that started a slice. */
  datatype Scan = Scan(depth: nat, pending: string, quoted: bool, escaped: bool, found: seq<string>)

  const START: Scan := Scan(0, "", false, false, [])

  function Step(s: Scan, c: char): Scan {
    var text := if s.depth > 0 then s.pending + [c] else "";
    if s.quoted then
      if s.escaped then s.(pending := text, escaped := false)
      else if c == '\\' then s.(pending := text, escaped := true)
      else if c == '"' then s.(pending := text, quoted := false)
      else s.(pending := text)
    else if c == '"' then s.(pending := text, quoted := true)
    else if c == '{' then s.(pending := if s.depth > 0 then text else "{", depth := s.depth + 1)
    else if c == '}' && s.depth == 1 then s.(pending := "", depth := 0, found := s.found + [text])
    else if c == '}' && s.depth > 1 then s.(pending := text, depth := s.depth - 1)
    else s.(pending := text)
  }

  function ScanAll(s: Scan, text: string): Scan {
    if text == "" then s else Step(ScanAll(s, text[..|text| - 1]), text[|text| - 1])
  }

  function Objects(text: string): seq<string> {
    ScanAll(START, text).found
  }

  lemma ScanSnoc(s: Scan, text: string, c: char)
    ensures ScanAll(s, text + [c]) == Step(ScanAll(s, text), c)
  {
    assert (text + [c])[..|text|] == text;
  }

  lemma {:induction false} ScanAppend(s: Scan, a: string, b: string)
    ensures ScanAll(s, a + b) == ScanAll(ScanAll(s, a), b)
  {
    if b == "" {
      assert a + b == a;
    } else {
      var front, last := b[..|b| - 1], b[|b| - 1];
      ScanAppend(s, a, front);
      assert a + b == (a + front) + [last];
      ScanSnoc(s, a + front, last);
    }
  }

  method JsonObjects(source: string) returns (found: seq<string>)
    ensures found == Objects(source)
  {
    found := [];
    var depth, start, quoted, escaped := 0, -1, false, false;
    ghost var s := START;
    for index := 0 to |source|
      invariant 0 <= depth && -1 <= start <= index && (start >= 0 <==> depth > 0)
      invariant s == ScanAll(START, source[..index])
      invariant s.depth == depth && s.quoted == quoted && s.escaped == escaped && s.found == found
      invariant s.pending == if start >= 0 then source[start..index] else ""
    {
      var character := source[index];
      ScanNext(source, index);
      SliceGrows(source, start, index);
      s := Step(s, character);
      if quoted {
        if escaped {
          escaped := false;
        } else if character == '\\' {
          escaped := true;
        } else if character == '"' {
          quoted := false;
        }
        continue;
      }
      if character == '"' {
        quoted := true;
      } else if character == '{' {
        if depth == 0 {
          start := index;
        }
        depth := depth + 1;
      } else if character == '}' && depth > 0 {
        depth := depth - 1;
        if depth == 0 && start >= 0 {
          found := found + [source[start..index + 1]];
          start := -1;
        }
      }
    }
    assert source[..|source|] == source;
  }

  lemma SliceGrows(source: string, start: int, index: nat)
    requires index < |source|
    ensures 0 <= start <= index ==> source[start..index + 1] == source[start..index] + [source[index]]
    ensures source[index..index + 1] == [source[index]]
  {
  }

  lemma ScanNext(source: string, index: nat)
    requires index < |source|
    ensures ScanAll(START, source[..index + 1]) == Step(ScanAll(START, source[..index]), source[index])
  {
    assert source[..index + 1] == source[..index] + [source[index]];
    ScanSnoc(START, source[..index], source[index]);
  }

  // ---- Slices ---------------------------------------------------------------------------------

  /** gaps[0] + slices[0] + gaps[1] + slices[1] + ... */
  function Weave(gaps: seq<string>, slices: seq<string>): string
    requires |gaps| == |slices|
  {
    if gaps == [] then "" else Weave(gaps[..|gaps| - 1], slices[..|slices| - 1]) + gaps[|gaps| - 1] + slices[|slices| - 1]
  }

  lemma WeaveSnoc(gaps: seq<string>, slices: seq<string>, gap: string, slice: string)
    requires |gaps| == |slices|
    ensures Weave(gaps + [gap], slices + [slice]) == Weave(gaps, slices) + gap + slice
  {
    assert (gaps + [gap])[..|gaps|] == gaps && (slices + [slice])[..|slices|] == slices;
  }

  /** One more character extends the tail or the pending text, or closes a slice after a gap. */
  lemma SliceStep(gaps: seq<string>, tail: string, s: Scan, c: char) returns (gaps': seq<string>, tail': string)
    requires |gaps| == |s.found| && (s.depth == 0 ==> s.pending == "")
    ensures var s' := Step(s, c);
            && |gaps'| == |s'.found| && (s'.depth == 0 ==> s'.pending == "")
            && Weave(gaps', s'.found) + tail' + s'.pending == Weave(gaps, s.found) + tail + s.pending + [c]
  {
    var before, s' := Weave(gaps, s.found), Step(s, c);
    AppendRegroups(before + tail, s.pending, [c]);
    gaps', tail' := gaps, tail;
    if s.depth > 0 && s'.depth == 0 {
      gaps', tail' := gaps + [tail], "";
      WeaveSnoc(gaps, s.found, tail, s.pending + [c]);
      AppendNothing(before + tail + (s.pending + [c]));
    } else if s.depth == 0 && s'.depth > 0 {
      AppendNothing(before + tail);
    } else if s.depth == 0 {
      tail' := tail + [c];
      AppendNothing(before + tail);
      AppendNothing(before + tail');
      AppendRegroups(before, tail, [c]);
    }
  }

  lemma AppendNothing(a: string)
    ensures a + "" == a
  {
  }

  /** The slices are disjoint pieces of the source, in order. */
  lemma {:induction false} SlicesInOrder(text: string) returns (gaps: seq<string>, tail: string)
    ensures |gaps| == |Objects(text)|
    ensures text == Weave(gaps, Objects(text)) + tail + ScanAll(START, text).pending
    ensures ScanAll(START, text).depth == 0 ==> ScanAll(START, text).pending == ""
  {
    gaps, tail := [], "";
    if text != "" {
      var front, c := text[..|text| - 1], text[|text| - 1];
      gaps, tail := SlicesInOrder(front);
      gaps, tail := SliceStep(gaps, tail, ScanAll(START, front), c);
      assert text == front + [c];
    }
  }

  /** The scanner that reads the pending text afresh keeps pace, and a slice it closes reads as itself. */
  lemma AfreshStep(s: Scan, c: char)
    requires (s.escaped ==> s.quoted) && (s.depth == 0 ==> s.pending == "")
    requires s.depth > 0 ==> ScanAll(START, s.pending) == s.(found := [])
    ensures Step(s, c).depth > 0 ==> ScanAll(START, Step(s, c).pending) == Step(s, c).(found := [])
    ensures Step(s, c).found != s.found ==>
              var slice := s.pending + [c];
              Step(s, c).found == s.found + [slice] && ScanAll(START, slice) == START.(found := [slice])
  {
    if s.depth > 0 {
      ScanSnoc(START, s.pending, c);
    } else {
      ScanSnoc(START, "", '{');
      assert "" + ['{'] == "{";
    }
  }

  /** Reading the pending text afresh brings the scanner to the same place; a finished slice reads as itself. */
  lemma {:induction false} SlicesReadAfresh(text: string)
    ensures var s := ScanAll(START, text);
            && (s.depth > 0 ==> ScanAll(START, s.pending) == s.(found := []))
            && forall x :: x in s.found ==> ScanAll(START, x) == START.(found := [x])
  {
    if text != "" {
      var front, c := text[..|text| - 1], text[|text| - 1];
      var s := ScanAll(START, front);
      SlicesReadAfresh(front);
      EscapesNeedQuotes(front);
      AfreshStep(s, c);
      assert ScanAll(START, text) == Step(s, c);
      forall x | x in Step(s, c).found ensures ScanAll(START, x) == START.(found := [x]) {
        if x !in s.found {
          assert x == s.pending + [c];
        }
      }
    }
  }

  /** Every slice is a fixed point of the scanner. */
  lemma SlicesAreFixedPoints(text: string, slice: string)
    requires slice in Objects(text)
    ensures Objects(slice) == [slice]
  {
    SlicesReadAfresh(text);
  }

  // ---- Composition ----------------------------------------------------------------------------

  /** Earlier findings do not influence later ones. */
  lemma {:induction false} FoundOnlyGrows(s: Scan, earlier: seq<string>, text: string)
    ensures ScanAll(s.(found := earlier + s.found), text)
         == ScanAll(s, text).(found := earlier + ScanAll(s, text).found)
  {
    if text != "" {
      FoundOnlyGrows(s, earlier, text[..|text| - 1]);
      var t := ScanAll(s, text[..|text| - 1]);
      AppendRegroups(earlier, t.found, [t.pending + [text[|text| - 1]]]);
    }
  }

  lemma {:induction false} EscapesNeedQuotes(text: string)
    ensures ScanAll(START, text).escaped ==> ScanAll(START, text).quoted
    ensures ScanAll(START, text).depth == 0 ==> ScanAll(START, text).pending == ""
  {
    if text != "" {
      EscapesNeedQuotes(text[..|text| - 1]);
    }
  }

  /** Outside braces and quotes, scanning starts over. */
  lemma ObjectsConcatenate(a: string, b: string)
    requires ScanAll(START, a).depth == 0 && !ScanAll(START, a).quoted
    ensures Objects(a + b) == Objects(a) + Objects(b)
  {
    EscapesNeedQuotes(a);
    ScanAppend(START, a, b);
    FoundOnlyGrows(START, Objects(a), b);
    assert ScanAll(START, a) == START.(found := Objects(a) + START.found);
  }

  // ---- Strings and nesting --------------------------------------------------------------------

  /** What may stand between the quotes of a JSON string (section 7 of RFC 8259): characters other than a quote
      or a backslash, and escapes, of which only the backslash and the next character matter here. */
  predicate StringBody(body: string) {
    if body == "" then true
    else if body[0] == '\\' then |body| >= 2 && StringBody(body[2..])
    else body[0] != '"' && StringBody(body[1..])
  }

  predicate IsPlain(text: string) {
    forall i :: 0 <= i < |text| ==> text[i] != '"' && text[i] != '{' && text[i] != '}'
  }

  /** Any text whose braces outside strings are balanced: every JSON text is one, whatever its spacing. */
  datatype Piece = Plain(text: string) | Literal(body: string) | Braces(inside: Pieces)

  datatype Pieces = End | More(head: Piece, tail: Pieces)

  predicate WellFormed(ps: Pieces) {
    match ps
    case End => true
    case More(Plain(text), tail) => IsPlain(text) && WellFormed(tail)
    case More(Literal(body), tail) => StringBody(body) && WellFormed(tail)
    case More(Braces(inside), tail) => WellFormed(inside) && WellFormed(tail)
  }

  function Text(ps: Pieces): string {
    match ps
    case End => ""
    case More(Plain(text), tail) => text + Text(tail)
    case More(Literal(body), tail) => "\"" + body + "\"" + Text(tail)
    case More(Braces(inside), tail) => "{" + Text(inside) + "}" + Text(tail)
  }

  /** The outermost brace groups, in order. */
  function TopLevel(ps: Pieces): seq<string> {
    match ps
    case End => []
    case More(Braces(inside), tail) => ["{" + Text(inside) + "}"] + TopLevel(tail)
    case More(_, tail) => TopLevel(tail)
  }

  /** The scanner read `text` and noticed nothing: it only remembers it if a slice is open. */
  function Passed(s: Scan, text: string): Scan {
    if s.depth > 0 then s.(pending := s.pending + text) else s
  }

  predicate Outside(s: Scan) {
    !s.quoted && !s.escaped && (s.depth == 0 ==> s.pending == "")
  }

  lemma ScanCons(s: Scan, c: char, text: string)
    ensures ScanAll(s, [c] + text) == ScanAll(Step(s, c), text)
  {
    ScanAppend(s, [c], text);
    assert [c][..0] == "";
    assert ScanAll(s, [c]) == Step(ScanAll(s, [c][..0]), c);
  }

  lemma {:induction false} PlainPasses(s: Scan, text: string)
    requires Outside(s) && IsPlain(text)
    ensures ScanAll(s, text) == Passed(s, text)
  {
    if text != "" {
      PlainPasses(s, text[..|text| - 1]);
      assert text == text[..|text| - 1] + [text[|text| - 1]];
    }
  }

  predicate Inside(s: Scan) {
    s.quoted && !s.escaped && (s.depth == 0 ==> s.pending == "")
  }

  lemma CharacterPasses(s: Scan, c: char)
    requires Inside(s) && c != '"' && c != '\\'
    ensures ScanAll(s, [c]) == Passed(s, [c])
  {
    ScanSnoc(s, "", c);
    assert "" + [c] == [c];
  }

  lemma EscapePasses(s: Scan, c: char)
    requires Inside(s)
    ensures ScanAll(s, ['\\', c]) == Passed(s, ['\\', c])
  {
    ScanSnoc(s, "", '\\');
    ScanSnoc(s, "" + ['\\'], c);
    assert "" + ['\\'] + [c] == ['\\', c];
    assert s.pending + ['\\'] + [c] == s.pending + ['\\', c];
  }

  /** Inside quotes nothing counts until the first quote that no backslash escapes. */
  lemma {:induction false} BodyPasses(s: Scan, body: string)
    requires Inside(s) && StringBody(body)
    ensures ScanAll(s, body) == Passed(s, body)
    decreases |body|
  {
    if body == "" {
      assert s.pending + "" == s.pending;
    } else if body[0] == '\\' {
      EscapePasses(s, body[1]);
      HeadPasses(s, ['\\', body[1]], body[2..], body);
    } else {
      CharacterPasses(s, body[0]);
      HeadPasses(s, [body[0]], body[1..], body);
    }
  }

  lemma {:induction false} HeadPasses(s: Scan, head: string, rest: string, body: string)
    requires Inside(s) && ScanAll(s, head) == Passed(s, head) && StringBody(rest)
    requires body == head + rest && head != ""
    ensures ScanAll(s, body) == Passed(s, body)
    decreases |body|, 0
  {
    ScanAppend(s, head, rest);
    BodyPasses(Passed(s, head), rest);
    PassedTwice(s, head, rest);
  }

  lemma LiteralPasses(s: Scan, body: string)
    requires Outside(s) && StringBody(body)
    ensures ScanAll(s, "\"" + body + "\"") == Passed(s, "\"" + body + "\"")
  {
    ScanGroup(s, '"', body, '"');
    BodyPasses(Step(s, '"'), body);
    QuoteSteps(s, body);
  }

  lemma QuoteSteps(s: Scan, body: string)
    requires Outside(s)
    ensures Step(Passed(Step(s, '"'), body), '"') == Passed(s, "\"" + body + "\"")
  {
    assert s.pending + ['"'] + body + ['"'] == s.pending + ("\"" + body + "\"");
  }

  lemma PassedTwice(s: Scan, a: string, b: string)
    ensures Passed(Passed(s, a), b) == Passed(s, a + b)
  {
    assert s.pending + a + b == s.pending + (a + b);
  }

  /** Where the scanner is after a balanced text: at the top it has added exactly the outermost groups. */
  function Balanced(s: Scan, ps: Pieces): Scan {
    if s.depth > 0 then Passed(s, Text(ps)) else s.(found := s.found + TopLevel(ps))
  }

  lemma PassedThenBalanced(s: Scan, head: string, tail: Pieces)
    requires ScanAll(s, head) == Passed(s, head) && ScanAll(Passed(s, head), Text(tail)) == Balanced(Passed(s, head), tail)
    ensures ScanAll(s, head + Text(tail))
         == if s.depth > 0 then Passed(s, head + Text(tail)) else s.(found := s.found + TopLevel(tail))
  {
    ScanAppend(s, head, Text(tail));
    PassedTwice(s, head, Text(tail));
  }

  lemma GroupThenMore(s: Scan, s': Scan, group: string, rest: string, more: seq<string>)
    requires s' == s.(found := s.found + [group]) && ScanAll(s, group) == s'
    requires ScanAll(s', rest) == s'.(found := s'.found + more)
    ensures ScanAll(s, group + rest) == s.(found := s.found + ([group] + more))
  {
    ScanAppend(s, group, rest);
    AppendRegroups(s.found, [group], more);
  }

  lemma AppendRegroups<T>(a: seq<T>, b: seq<T>, c: seq<T>)
    ensures a + (b + c) == a + b + c
  {
  }

  lemma {:induction false} BalancedText(s: Scan, ps: Pieces)
    requires Outside(s) && WellFormed(ps)
    ensures ScanAll(s, Text(ps)) == Balanced(s, ps)
    decreases ps, 0
  {
    match ps
    case End =>
      assert s.pending + "" == s.pending && s.found + [] == s.found;
    case More(Plain(text), tail) =>
      PlainPasses(s, text);
      BalancedText(Passed(s, text), tail);
      PassedThenBalanced(s, text, tail);
    case More(Literal(body), tail) =>
      var literal := "\"" + body + "\"";
      LiteralPasses(s, body);
      BalancedText(Passed(s, literal), tail);
      PassedThenBalanced(s, literal, tail);
    case More(Braces(inside), tail) =>
      BracesPass(s, inside);
      var group := "{" + Text(inside) + "}";
      if s.depth > 0 {
        BalancedText(Passed(s, group), tail);
        PassedThenBalanced(s, group, tail);
      } else {
        var s' := s.(found := s.found + [group]);
        BalancedText(s', tail);
        GroupThenMore(s, s', group, Text(tail), TopLevel(tail));
      }
  }

  lemma {:induction false} BracesPass(s: Scan, inside: Pieces)
    requires Outside(s) && WellFormed(inside)
    ensures var group := "{" + Text(inside) + "}";
            ScanAll(s, group) == if s.depth > 0 then Passed(s, group) else s.(found := s.found + [group])
    decreases inside, 1
  {
    BalancedText(Step(s, '{'), inside);
    GroupCloses(s, Text(inside));
  }

  lemma GroupCloses(s: Scan, text: string)
    requires Outside(s) && ScanAll(Step(s, '{'), text) == Passed(Step(s, '{'), text)
    ensures var group := "{" + text + "}";
            ScanAll(s, group) == if s.depth > 0 then Passed(s, group) else s.(found := s.found + [group])
  {
    ScanGroup(s, '{', text, '}');
    CloseStep(s, text);
  }

  lemma ScanGroup(s: Scan, open: char, text: string, close: char)
    ensures ScanAll(s, [open] + text + [close]) == Step(ScanAll(Step(s, open), text), close)
  {
    ScanSnoc(s, [open] + text, close);
    ScanCons(s, open, text);
  }

  lemma CloseStep(s: Scan, text: string)
    requires Outside(s)
    ensures var group := "{" + text + "}";
            Step(Passed(Step(s, '{'), text), '}') == if s.depth > 0 then Passed(s, group) else s.(found := s.found + [group])
  {
    assert s.pending + ['{'] + text + ['}'] == s.pending + ("{" + text + "}");
  }

  /** On every balanced text the scanner returns exactly the outermost brace groups, whatever the strings contain. */
  lemma ObjectsAreTopLevelGroups(ps: Pieces)
    requires WellFormed(ps)
    ensures Objects(Text(ps)) == TopLevel(ps)
  {
    BalancedText(START, ps);
  }

  // ---- parseDecision --------------------------------------------------------------------------

  /** The first slice that `decode` (JSON and schema together) accepts; None is the thrown error. */
  method ParseDecision<D(0)>(source: string, decode: string -> Option<D>) returns (r: Option<D>)
    ensures r.Some? <==> exists i :: 0 <= i < |Objects(source)| && decode(Objects(source)[i]).Some?
    ensures r.Some? ==> exists i :: 0 <= i < |Objects(source)| && r == decode(Objects(source)[i])
                                    && forall j :: 0 <= j < i ==> decode(Objects(source)[j]).None?
  {
    var candidates := JsonObjects(source);
    for k := 0 to |candidates|
      invariant forall j :: 0 <= j < k ==> decode(candidates[j]).None?
    {
      r := decode(candidates[k]);
      if r.Some? {
        return;
      }
    }
    r := None;
  }
}
