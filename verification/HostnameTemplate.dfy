/** The hostname template language of `hostname_template.rs`. */
module HostnameTemplate {
  import opened Wrappers
  import opened Text
  import opened Validators

  datatype Segment = Literal(text: string) | Hex(n: nat) | Num(n: nat)

  datatype TemplateError =
    | EmptyTemplate
    | NoPlaceholders
    | InvalidLiteralChar(c: char)
    | UnknownPlaceholder(name: string)
    | MissingColon(content: string)
    | InvalidN(text: string)
    | HexNOutOfRange(n: nat)
    | NumNOutOfRange(n: nat)
    | UnclosedBrace
    | EmptyBrace
    | LeadingHyphen
    | TrailingHyphen
    | ExceedsMaxLength(length: nat)

  // ---- Placeholders ----

  function DropPlus(s: string): string {
    if s != "" && s[0] == '+' then s[1..] else s
  }

  /** `u32::from_str`: an optional plus sign, then digits, within 32 bits. */
  function ParseU32(s: string): Option<nat> {
    var d := DropPlus(s);
    if d != "" && AllDigits(d) && NumeralValue(d) < 0x1_0000_0000 then Some(NumeralValue(d)) else None
  }

  function ParsePlaceholder(content: string): Result<Segment, TemplateError> {
    var k := IndexOf(content, ':');
    if k == |content| then Failure(MissingColon(content))
    else
      var name, text := content[..k], content[k + 1..];
      match ParseU32(text)
      case None => Failure(InvalidN(text))
      case Some(n) =>
        if name == "hex" then
          if 1 <= n <= 32 then Success(Hex(n)) else Failure(HexNOutOfRange(n))
        else if name == "num" then
          if 1 <= n <= 10 then Success(Num(n)) else Failure(NumNOutOfRange(n))
        else Failure(UnknownPlaceholder(name))
  }

  predicate InRange(seg: Segment) {
    match seg
    case Literal(_) => true
    case Hex(n) => 1 <= n <= 32
    case Num(n) => 1 <= n <= 10
  }

  function Keyword(seg: Segment): string
    requires !seg.Literal?
  {
    if seg.Hex? then "hex" else "num"
  }

  /** `content` is a spelling of `seg` between braces; `{hex:+06}` is one too. */
  predicate PlaceholderText(content: string, seg: Segment) {
    && !seg.Literal? && InRange(seg)
    && |content| > 4 && content[..4] == Keyword(seg) + ":"
    && var d := DropPlus(content[4..]);
       d != "" && AllDigits(d) && NumeralValue(d) == seg.n
  }

  lemma ParsePlaceholderExact(content: string, seg: Segment)
    ensures ParsePlaceholder(content) == Success(seg) <==> PlaceholderText(content, seg)
  {
    var k := IndexOf(content, ':');
    if |content| > 4 && !seg.Literal? && content[..4] == Keyword(seg) + ":" {
      assert content == Keyword(seg) + ":" + content[4..];
      IndexOfAppend(Keyword(seg), ':', content[4..]);
      assert content[..3] == Keyword(seg);
    }
    if ParsePlaceholder(content) == Success(seg) {
      assert content[..k] == Keyword(seg) && k == 3;
      assert content[..4] == content[..3] + [content[3]];
    }
  }

  // ---- Parsing ----

  predicate IsLiteralChar(c: char) {
    IsLowerAlnum(c) || c == '-'
  }

  predicate LiteralText(s: string) {
    forall i :: 0 <= i < |s| ==> IsLiteralChar(s[i])
  }

  /** Put pending literal text in front of already parsed segments. */
  function Glue(literal: string, segments: seq<Segment>): seq<Segment> {
    if literal == "" then segments
    else if segments != [] && segments[0].Literal? then [Literal(literal + segments[0].text)] + segments[1..]
    else [Literal(literal)] + segments
  }

  /** What the character loop of `parse` collects, read from the right end. */
  function ParseSegments(t: string): Result<seq<Segment>, TemplateError>
    decreases |t|
  {
    if t == "" then Success([])
    else if t[0] == '{' then
      var k := IndexOf(t, '}');
      if k == |t| then Failure(UnclosedBrace)
      else if k == 1 then Failure(EmptyBrace)
      else
        var seg :- ParsePlaceholder(t[1..k]);
        var rest :- ParseSegments(t[k + 1..]);
        Success([seg] + rest)
    else if !IsLiteralChar(t[0]) then Failure(InvalidLiteralChar(t[0]))
    else
      var rest :- ParseSegments(t[1..]);
      Success(Glue(t[..1], rest))
  }

  function Width(seg: Segment): nat {
    match seg
    case Literal(text) => ByteLen(text)
    case Hex(n) => n
    case Num(n) => n
  }

  function TotalWidth(segments: seq<Segment>): nat {
    if segments == [] then 0 else TotalWidth(segments[..|segments| - 1]) + Width(segments[|segments| - 1])
  }

  function ValidateTemplate(segments: seq<Segment>): Outcome<TemplateError> {
    if TotalWidth(segments) > 63 then Fail(ExceedsMaxLength(TotalWidth(segments)))
    else if StartsWithHyphen(segments) then Fail(LeadingHyphen)
    else if EndsWithHyphen(segments) then Fail(TrailingHyphen)
    else Pass
  }

  predicate StartsWithHyphen(segments: seq<Segment>) {
    segments != [] && segments[0].Literal? && "-" <= segments[0].text
  }

  predicate EndsWithHyphen(segments: seq<Segment>) {
    && segments != []
    && var last := segments[|segments| - 1];
       last.Literal? && last.text != "" && last.text[|last.text| - 1] == '-'
  }

  predicate HasPlaceholder(segments: seq<Segment>) {
    exists i :: 0 <= i < |segments| && !segments[i].Literal?
  }

  function ParseTemplate(t: string): Result<seq<Segment>, TemplateError> {
    if t == "" then Failure(EmptyTemplate)
    else
      var segments :- ParseSegments(t);
      if !HasPlaceholder(segments) then Failure(NoPlaceholders)
      else
        match ValidateTemplate(segments)
        case Fail(e) => Failure(e)
        case Pass => Success(segments)
  }

  lemma GlueTwice(a: string, b: string, segments: seq<Segment>)
    requires b != ""
    ensures Glue(a, Glue(b, segments)) == Glue(a + b, segments)
  {
    if a == "" {
      assert a + b == b;
    } else if segments != [] && segments[0].Literal? {
      assert a + (b + segments[0].text) == (a + b) + segments[0].text;
    }
  }

  /** What the loop ends with when it has `segments` and `literal` in hand and
      the unread characters parse to `rest`. */
  function Resume(segments: seq<Segment>, literal: string, rest: Result<seq<Segment>, TemplateError>):
    Result<seq<Segment>, TemplateError>
  {
    var r :- rest;
    Success(segments + Glue(literal, r))
  }

  /** Close the pending literal, if there is one. */
  function Flush(segments: seq<Segment>, literal: string): seq<Segment> {
    if literal == "" then segments else segments + [Literal(literal)]
  }

  lemma ResumeLiteral(segments: seq<Segment>, literal: string, t: string)
    requires t != "" && IsLiteralChar(t[0])
    ensures Resume(segments, literal, ParseSegments(t)) == Resume(segments, literal + [t[0]], ParseSegments(t[1..]))
  {
    assert t[..1] == [t[0]];
    if ParseSegments(t[1..]).Success? {
      GlueTwice(literal, t[..1], ParseSegments(t[1..]).value);
    }
  }

  lemma GlueSegment(segments: seq<Segment>, literal: string, seg: Segment, rest: seq<Segment>)
    requires !seg.Literal?
    ensures segments + Glue(literal, [seg] + rest) == Flush(segments, literal) + [seg] + Glue("", rest)
  {
  }

  lemma ResumePlaceholder(segments: seq<Segment>, literal: string, t: string, seg: Segment)
    requires t != "" && t[0] == '{' && 1 < IndexOf(t, '}') < |t|
    requires ParsePlaceholder(t[1..IndexOf(t, '}')]) == Success(seg)
    ensures Resume(segments, literal, ParseSegments(t))
         == Resume(Flush(segments, literal) + [seg], "", ParseSegments(t[IndexOf(t, '}') + 1..]))
  {
    ParsePlaceholderExact(t[1..IndexOf(t, '}')], seg);
    var tail := ParseSegments(t[IndexOf(t, '}') + 1..]);
    if tail.Success? {
      GlueSegment(segments, literal, seg, tail.value);
    }
  }

  /** Read characters up to the closing brace. */
  method ReadPlaceholder(template: string, start: nat)
    returns (placeholder: string, foundClose: bool, i: nat)
    requires 0 < start <= |template| && template[start - 1] == '{'
    ensures start <= i <= |template|
    ensures var tail := template[start - 1..];
            var k := IndexOf(tail, '}');
            if foundClose then k < |tail| && placeholder == tail[1..k] && template[i..] == tail[k + 1..]
            else k == |tail|
  {
    placeholder, foundClose, i := "", false, start;
    while i < |template|
      invariant start <= i <= |template|
      invariant placeholder == template[start..i] && '}' !in placeholder
    {
      var ch := template[i];
      i := i + 1;
      if ch == '}' {
        foundClose := true;
        break;
      }
      placeholder := placeholder + [ch];
    }
    ghost var tail := template[start - 1..];
    if foundClose {
      assert tail == (['{'] + placeholder) + ['}'] + template[i..];
      IndexOfAppend(['{'] + placeholder, '}', template[i..]);
    } else {
      assert tail == ['{'] + placeholder;
      IndexOfAbsent(tail, '}');
    }
  }

  /** The character loop of `parse`. */
  method CollectSegments(template: string) returns (r: Result<seq<Segment>, TemplateError>)
    ensures r == ParseSegments(template)
  {
    var segments: seq<Segment>, literal := [], "";
    var i := 0;
    assert template[0..] == template;
    ResumeStart(ParseSegments(template));
    while i < |template|
      invariant 0 <= i <= |template|
      invariant ParseSegments(template) == Resume(segments, literal, ParseSegments(template[i..]))
    {
      var c := template[i];
      ghost var tail := template[i..];
      if c == '{' {
        i := i + 1;
        ghost var before, pending := segments, literal;
        if literal != "" {
          segments, literal := segments + [Literal(literal)], "";
        }
        var placeholder, foundClose;
        placeholder, foundClose, i := ReadPlaceholder(template, i);
        if !foundClose {
          return Failure(UnclosedBrace);
        }
        if placeholder == "" {
          return Failure(EmptyBrace);
        }
        var segment := ParsePlaceholder(placeholder);
        if segment.Failure? {
          return Failure(segment.error);
        }
        ResumePlaceholder(before, pending, tail, segment.value);
        segments := segments + [segment.value];
      } else {
        if !IsLiteralChar(c) {
          return Failure(InvalidLiteralChar(c));
        }
        ResumeLiteral(segments, literal, tail);
        assert tail[1..] == template[i + 1..];
        literal := literal + [c];
        i := i + 1;
      }
    }
    assert template[i..] == "";
    ResumeEnd(segments, literal);
    if literal != "" {
      segments := segments + [Literal(literal)];
    }
    r := Success(segments);
  }

  lemma ResumeStart(rest: Result<seq<Segment>, TemplateError>)
    ensures Resume([], "", rest) == rest
  {
    if rest.Success? {
      assert [] + rest.value == rest.value;
    }
  }

  lemma ResumeEnd(segments: seq<Segment>, literal: string)
    ensures Resume(segments, literal, Success([])) == Success(Flush(segments, literal))
  {
    assert segments + Glue(literal, []) == Flush(segments, literal);
  }

  method Parse(template: string) returns (r: Result<seq<Segment>, TemplateError>)
    ensures r == ParseTemplate(template)
  {
    if template == "" {
      return Failure(EmptyTemplate);
    }
    var segments :- CollectSegments(template);
    if forall k :: 0 <= k < |segments| ==> segments[k].Literal? {
      return Failure(NoPlaceholders);
    }
    var check := ValidateTemplate(segments);
    if check.Fail? {
      return Failure(check.error);
    }
    r := Success(segments);
  }

  // ---- The grammar, and the parser's exact relation to it ----

  /** `t` spells the segments one after the other. */
  predicate Spells(t: string, segments: seq<Segment>)
    decreases |segments|
  {
    if segments == [] then t == ""
    else match segments[0]
      case Literal(text) =>
        text != "" && LiteralText(text) && text <= t && Spells(t[|text|..], segments[1..])
      case _ =>
        var k := IndexOf(t, '}');
        && 0 < k < |t| && t[0] == '{'
        && PlaceholderText(t[1..k], segments[0])
        && Spells(t[k + 1..], segments[1..])
  }

  predicate NoAdjacentLiterals(segments: seq<Segment>) {
    forall i :: 0 < i < |segments| ==> !(segments[i - 1].Literal? && segments[i].Literal?)
  }

  predicate Canonical(segments: seq<Segment>) {
    && NoAdjacentLiterals(segments)
    && (forall i :: 0 <= i < |segments| ==> CanonicalSegment(segments[i]))
    && HasPlaceholder(segments)
    && TotalWidth(segments) <= 63
    && !StartsWithHyphen(segments) && !EndsWithHyphen(segments)
  }

  predicate CanonicalSegment(seg: Segment) {
    InRange(seg) && (seg.Literal? ==> seg.text != "" && LiteralText(seg.text))
  }

  lemma SpellsPlaceholder(t: string, seg: Segment, rest: seq<Segment>)
    requires t != "" && t[0] == '{' && 0 < IndexOf(t, '}') < |t|
    requires PlaceholderText(t[1..IndexOf(t, '}')], seg)
    ensures Spells(t, [seg] + rest) <==> Spells(t[IndexOf(t, '}') + 1..], rest)
  {
    assert ([seg] + rest)[1..] == rest;
  }

  /** One more literal character in front: what `Glue` does to a spelling. */
  lemma SpellsGlue(t: string, rest: seq<Segment>)
    requires t != "" && IsLiteralChar(t[0])
    requires Spells(t[1..], rest) && NoAdjacentLiterals(rest)
    ensures Spells(t, Glue(t[..1], rest)) && NoAdjacentLiterals(Glue(t[..1], rest))
  {
    assert t == t[..1] + t[1..];
    var segments := Glue(t[..1], rest);
    if rest != [] && rest[0].Literal? {
      assert segments[1..] == rest[1..];
      assert t[|segments[0].text|..] == t[1..][|rest[0].text|..];
    } else {
      assert segments[1..] == rest;
    }
  }

  lemma {:induction false} ParsedIsSpelled(t: string)
    requires ParseSegments(t).Success?
    ensures Spells(t, ParseSegments(t).value)
    ensures NoAdjacentLiterals(ParseSegments(t).value)
    decreases |t|
  {
    if t != "" {
      if t[0] == '{' {
        var k := IndexOf(t, '}');
        var seg, rest := ParsePlaceholder(t[1..k]).value, ParseSegments(t[k + 1..]).value;
        ParsedIsSpelled(t[k + 1..]);
        ParsePlaceholderExact(t[1..k], seg);
        SpellsPlaceholder(t, seg, rest);
      } else {
        ParsedIsSpelled(t[1..]);
        SpellsGlue(t, ParseSegments(t[1..]).value);
      }
    }
  }

  /** Dropping the first of several literal characters leaves the shorter literal spelled. */
  lemma SpellsShorter(t: string, segments: seq<Segment>)
    requires Spells(t, segments) && segments != [] && segments[0].Literal? && |segments[0].text| > 1
    ensures Spells(t[1..], [Literal(segments[0].text[1..])] + segments[1..])
  {
    var text := segments[0].text;
    var shorter := [Literal(text[1..])] + segments[1..];
    assert shorter[1..] == segments[1..];
    assert text[1..] == t[1..][..|text| - 1];
    assert t[1..][|text| - 1..] == t[|text|..];
  }

  lemma NoAdjacentTail(segments: seq<Segment>, shorter: seq<Segment>)
    requires segments != [] && NoAdjacentLiterals(segments)
    requires shorter == segments[1..] || (segments[0].Literal? && exists text :: shorter == [Literal(text)] + segments[1..])
    ensures NoAdjacentLiterals(shorter)
  {
    if shorter == segments[1..] {
      assert forall i :: 0 < i < |shorter| ==> shorter[i] == segments[i + 1] && shorter[i - 1] == segments[i];
    } else {
      assert forall i :: 0 < i < |shorter| ==> shorter[i] == segments[i];
    }
  }

  lemma {:induction false} SpelledIsParsed(t: string, segments: seq<Segment>)
    requires Spells(t, segments) && NoAdjacentLiterals(segments)
    ensures ParseSegments(t) == Success(segments)
    decreases |t|, 1
  {
    if segments != [] {
      if segments[0].Literal? {
        SpelledLiteralIsParsed(t, segments);
      } else {
        var k := IndexOf(t, '}');
        NoAdjacentTail(segments, segments[1..]);
        SpelledIsParsed(t[k + 1..], segments[1..]);
        ParseConsPlaceholder(t, segments[0], segments[1..]);
        assert segments == [segments[0]] + segments[1..];
      }
    }
  }

  lemma ParseConsPlaceholder(t: string, seg: Segment, rest: seq<Segment>)
    requires t != "" && t[0] == '{' && 0 < IndexOf(t, '}') < |t|
    requires PlaceholderText(t[1..IndexOf(t, '}')], seg)
    requires ParseSegments(t[IndexOf(t, '}') + 1..]) == Success(rest)
    ensures ParseSegments(t) == Success([seg] + rest)
  {
    ParsePlaceholderExact(t[1..IndexOf(t, '}')], seg);
  }

  /** One literal character in front of a parsed rest. */
  lemma ParseConsLiteral(t: string, rest: seq<Segment>, segments: seq<Segment>)
    requires t != "" && IsLiteralChar(t[0]) && ParseSegments(t[1..]) == Success(rest) && Glue(t[..1], rest) == segments
    ensures ParseSegments(t) == Success(segments)
  {
    hide Glue, ParsePlaceholder;
  }

  /** What a spelled list that begins with a literal says of the first character. */
  lemma SpellsLiteral(t: string, segments: seq<Segment>)
    requires Spells(t, segments) && segments != [] && segments[0].Literal?
    ensures var text := segments[0].text;
      && text != "" && t != "" && t[0] == text[0] && IsLiteralChar(t[0])
      && (|text| == 1 ==> Spells(t[1..], segments[1..]))
  {
  }

  lemma GlueFirst(t: string, segments: seq<Segment>, rest: seq<Segment>)
    requires t != "" && segments != [] && segments[0].Literal? && segments[0].text == t[..1] && rest == segments[1..]
    requires NoAdjacentLiterals(segments)
    ensures Glue(t[..1], rest) == segments
  {
    assert rest != [] ==> rest[0] == segments[1];
    assert segments == [segments[0]] + rest;
  }

  lemma GlueMore(t: string, segments: seq<Segment>, shorter: seq<Segment>)
    requires t != "" && segments != [] && segments[0].Literal? && |segments[0].text| > 1 && t[0] == segments[0].text[0]
    requires shorter == [Literal(segments[0].text[1..])] + segments[1..]
    ensures Glue(t[..1], shorter) == segments
  {
    assert t[..1] + segments[0].text[1..] == segments[0].text;
    assert shorter[1..] == segments[1..];
    assert segments == [segments[0]] + segments[1..];
  }

  lemma {:induction false} SpelledLiteralIsParsed(t: string, segments: seq<Segment>)
    requires Spells(t, segments) && NoAdjacentLiterals(segments)
    requires segments != [] && segments[0].Literal?
    ensures ParseSegments(t) == Success(segments)
    decreases |t|, 0
  {
    hide Spells, NoAdjacentLiterals, ParseSegments, Glue, IsLiteralChar;
    SpellsLiteral(t, segments);
    var text := segments[0].text;
    if |text| == 1 {
      NoAdjacentTail(segments, segments[1..]);
      SpelledIsParsed(t[1..], segments[1..]);
      GlueFirst(t, segments, segments[1..]);
      ParseConsLiteral(t, segments[1..], segments);
    } else {
      var shorter := [Literal(text[1..])] + segments[1..];
      SpellsShorter(t, segments);
      NoAdjacentTail(segments, shorter);
      SpelledIsParsed(t[1..], shorter);
      GlueMore(t, segments, shorter);
      ParseConsLiteral(t, shorter, segments);
    }
  }

  lemma {:induction false} SpelledSegments(t: string, segments: seq<Segment>)
    requires Spells(t, segments)
    ensures forall i :: 0 <= i < |segments| ==> CanonicalSegment(segments[i])
    decreases |segments|
  {
    if segments != [] {
      if segments[0].Literal? {
        SpelledSegments(t[|segments[0].text|..], segments[1..]);
      } else {
        SpelledSegments(t[IndexOf(t, '}') + 1..], segments[1..]);
      }
      assert segments == [segments[0]] + segments[1..];
    }
  }

  /** The parser accepts exactly the texts that spell a canonical segment list, and returns that list. */
  lemma ParseExact(t: string, segments: seq<Segment>)
    ensures ParseTemplate(t) == Success(segments) <==> Spells(t, segments) && Canonical(segments)
  {
    if ParseTemplate(t) == Success(segments) {
      ParsedIsSpelled(t);
      SpelledSegments(t, segments);
    }
    if Spells(t, segments) && Canonical(segments) {
      SpelledIsParsed(t, segments);
    }
  }

  function PrintSegment(seg: Segment): string {
    match seg
    case Literal(text) => text
    case Hex(n) => "{hex:" + Decimal(n) + "}"
    case Num(n) => "{num:" + Decimal(n) + "}"
  }

  /** The canonical text of a segment list. */
  function Print(segments: seq<Segment>): string {
    if segments == [] then "" else PrintSegment(segments[0]) + Print(segments[1..])
  }

  lemma Braced(content: string, rest: string)
    requires '}' !in content
    ensures var t, k := ['{'] + content + ['}'] + rest, |content| + 1;
            IndexOf(t, '}') == k && t[1..k] == content && t[k + 1..] == rest
  {
    IndexOfAppend(['{'] + content, '}', rest);
  }

  lemma PrintedContent(seg: Segment, rest: string)
    requires !seg.Literal? && InRange(seg)
    ensures var content := Keyword(seg) + ":" + Decimal(seg.n);
            && PlaceholderText(content, seg) && '}' !in content
            && PrintSegment(seg) + rest == ['{'] + content + ['}'] + rest
  {
    var content := Keyword(seg) + ":" + Decimal(seg.n);
    assert content[..4] == Keyword(seg) + ":" && content[4..] == Decimal(seg.n);
    assert PrintSegment(seg) == ['{'] + content + ['}'];
  }

  lemma {:induction false} PrintSpells(segments: seq<Segment>)
    requires forall i :: 0 <= i < |segments| ==> CanonicalSegment(segments[i])
    ensures Spells(Print(segments), segments)
  {
    if segments != [] {
      var seg, rest := segments[0], Print(segments[1..]);
      PrintSpells(segments[1..]);
      if seg.Literal? {
        assert Print(segments)[|seg.text|..] == rest;
      } else {
        PrintedContent(seg, rest);
        Braced(Keyword(seg) + ":" + Decimal(seg.n), rest);
      }
    }
  }

  /** Parsing what was printed gives the list back. */
  lemma ParsePrint(segments: seq<Segment>)
    requires Canonical(segments)
    ensures ParseTemplate(Print(segments)) == Success(segments)
  {
    PrintSpells(segments);
    ParseExact(Print(segments), segments);
  }
}
