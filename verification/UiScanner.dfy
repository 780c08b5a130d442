/**
 * The scanner as it is written, with offsets, loops and a stack, proved against
 * `UiHierarchy`; and the shape of every hierarchy it accepts.
 */
module UiScanner {
  import opened Common
  import opened UiHierarchy

  // ---------------------------------------------------------------- shape

  /** Parents come first and are one level up; roots are at depth 1; both limits hold. */
  ghost predicate WellShaped(nodes: seq<Node>) {
    && |nodes| <= MAX_NODES
    && forall i :: 0 <= i < |nodes| ==>
         && 1 <= nodes[i].depth <= MAX_DEPTH
         && (nodes[i].parent.None? <==> nodes[i].depth == 1)
         && (nodes[i].parent.Some? ==>
             nodes[i].parent.value < i
             && nodes[nodes[i].parent.value].depth + 1 == nodes[i].depth)
  }

  /** The root frame first, then open nodes, each at its depth. */
  ghost predicate StackFits(st: State) {
    && (!st.seen ==> st.stack == [])
    && (st.stack != [] ==> st.stack[0].node.None?)
    && forall k :: 1 <= k < |st.stack| ==>
         st.stack[k].node.Some? && st.stack[k].node.value < |st.nodes| && st.nodes[st.stack[k].node.value].depth == k
  }

  lemma {:induction false} ParentIsInnermost(stack: seq<Frame>)
    requires stack != [] && stack[0].node.None? && forall k :: 1 <= k < |stack| ==> stack[k].node.Some?
    ensures ParentOf(stack) == stack[|stack| - 1].node
  {
    if |stack| == 1 {
      assert ParentOf(stack[..0]) == None;
    }
  }

  lemma {:induction false} TagKeepsShape(st: State, raw: string)
    requires WellShaped(st.nodes) && StackFits(st)
    ensures OpenTag(st, raw).Ok? ==> WellShaped(OpenTag(st, raw).value.nodes) && StackFits(OpenTag(st, raw).value)
    ensures raw != "" && CloseTag(st, raw).Ok? ==>
            WellShaped(CloseTag(st, raw).value.nodes)
            && StackFits(CloseTag(st, raw).value)
  {
    hide ParseStartTag, ParentOf, Trim, RotationText;
    if st.stack != [] {
      ParentIsInnermost(st.stack);
    }
  }

  lemma {:induction false} ScanKeepsShape(s: string, st: State)
    requires WellShaped(st.nodes) && StackFits(st) && ParseRest(s, st).Ok?
    ensures WellShaped(ParseRest(s, st).value.nodes)
    decreases |s|
  {
    hide IndexOf, Trim, TagEnd, CloseTag, OpenTag, WellShaped, StackFits;
    var start := IndexOf(s, "<");
    if start.Some? {
      var t := s[start.value..];
      if StartsWith(t, "<!--") {
        ScanKeepsShape(t[4 + IndexOf(t[4..], "-->").value + 3..], st);
      } else if StartsWith(t, "<?") {
        ScanKeepsShape(t[2 + IndexOf(t[2..], "?>").value + 2..], st);
      } else {
        var end := TagEnd(t[1..], None).value;
        var raw := Trim(t[1..1 + end]);
        TagKeepsShape(st, raw);
        var next := if raw != "" && raw[0] == '/' then CloseTag(st, raw) else OpenTag(st, raw);
        ScanKeepsShape(t[1 + end + 1..], next.value);
      }
    }
  }

  /** Whatever the text: what is accepted is a tree in preorder within the limits. */
  lemma {:induction false} AcceptedIsWellShaped(output: string)
    requires Parse(output).Ok?
    ensures WellShaped(Parse(output).value.nodes)
  {
    hide ParseRest, Extract;
    ScanKeepsShape(Extract(output).value, State([], [], "0", false));
  }

  // ---------------------------------------------------------------- loops

  method FindXmlTagEnd(xml: string, start: nat) returns (index: Option<nat>)
    requires start <= |xml|
    ensures index == (if TagEnd(xml[start..], None).None? then None else Some(start + TagEnd(xml[start..], None).value))
  {
    var quote: Option<char> := None;
    var i := start;
    while i < |xml|
      invariant start <= i <= |xml|
      invariant var here := TagEnd(xml[i..], quote); var all := TagEnd(xml[start..], None);
                all == if here.None? then None else Some(i - start + here.value)
    {
      assert xml[i..][1..] == xml[i + 1..];
      var c := xml[i];
      if quote.Some? {
        if c == quote.value {
          quote := None;
        }
      } else if c == '"' || c == '\'' {
        quote := Some(c);
      } else if c == '>' {
        return Some(i);
      }
      i := i + 1;
    }
    return None;
  }

  method SkipSpaces(value: string, start: nat) returns (offset: nat)
    requires start <= |value|
    ensures offset == start + SpaceRun(value[start..]) <= |value|
  {
    offset := start;
    while offset < |value| && IsSpace(value[offset])
      invariant start <= offset <= |value|
      invariant start + SpaceRun(value[start..]) == offset + SpaceRun(value[offset..])
    {
      assert value[offset..][1..] == value[offset + 1..];
      offset := offset + 1;
    }
  }

  method SkipName(value: string, start: nat) returns (offset: nat)
    requires start <= |value|
    ensures offset == start + NameRun(value[start..]) <= |value|
  {
    offset := start;
    while offset < |value| && IsNameChar(value[offset])
      invariant start <= offset <= |value|
      invariant start + NameRun(value[start..]) == offset + NameRun(value[offset..])
    {
      assert value[offset..][1..] == value[offset + 1..];
      offset := offset + 1;
    }
  }

  method SkipToQuote(value: string, start: nat, quote: char) returns (offset: nat)
    requires start <= |value|
    ensures offset == start + QuoteIndex(value[start..], quote) <= |value|
  {
    offset := start;
    while offset < |value| && value[offset] != quote
      invariant start <= offset <= |value|
      invariant start + QuoteIndex(value[start..], quote) == offset + QuoteIndex(value[offset..], quote)
    {
      assert value[offset..][1..] == value[offset + 1..];
      offset := offset + 1;
    }
  }

  method ReadName(value: string, start: nat, known: Attributes) returns (name: Result<string, ParseError>, offset: nat)
    requires start < |value|
    ensures name.Err? ==> ScanName(value[start..], known) == Err(name.error)
    ensures name.Ok? ==>
            start < offset <= |value|
            && ScanName(value[start..], known) == Ok((name.value, value[offset..]))
  {
    hide SpaceRun, NameRun;
    ghost var s := value[start..];
    offset := SkipName(value, start);
    var found := value[start..offset];
    ghost var s1 := s[NameRun(s)..];
    assert found == s[..NameRun(s)] && s1 == value[offset..];
    if found == "" || found in known { return Err(InvalidAttribute), offset; }
    offset := SkipSpaces(value, offset);
    assert s1[SpaceRun(s1)..] == value[offset..];
    if offset >= |value| || value[offset] != '=' { return Err(InvalidAttribute), offset; }
    assert s1[SpaceRun(s1)..][1..] == value[offset + 1..];
    return Ok(found), offset + 1;
  }

  method ReadValue(value: string, start: nat) returns (text: Result<string, ParseError>, offset: nat)
    requires start <= |value|
    ensures text.Err? ==> ScanValue(value[start..]) == Err(text.error)
    ensures text.Ok? ==> start < offset <= |value| && ScanValue(value[start..]) == Ok((text.value, value[offset..]))
  {
    hide SpaceRun, QuoteIndex;
    ghost var s := value[start..];
    offset := SkipSpaces(value, start);
    ghost var s1 := s[SpaceRun(s)..];
    assert s1 == value[offset..];
    if offset >= |value| || (value[offset] != '"' && value[offset] != '\'') { return Err(Unquoted), offset; }
    var quote := value[offset];
    offset := offset + 1;
    assert s1[1..] == value[offset..];
    var attributeStart := offset;
    offset := SkipToQuote(value, offset, quote);
    if offset >= |value| { return Err(UnterminatedAttribute), offset; }
    ghost var n := QuoteIndex(s1[1..], quote);
    assert s1[1..][..n] == value[attributeStart..offset] && s1[1..][n + 1..] == value[offset + 1..];
    return Ok(value[attributeStart..offset]), offset + 1;
  }

  method ParseXmlStartTag(raw: string) returns (result: Result<Tag, ParseError>)
    ensures result == ParseStartTag(raw)
  {
    hide SpaceRun, NameRun, Decode, Oversized, ScanName, ScanValue, Trim, TrimEnd, ParseAttributes, Store;
    var value := Trim(raw);
    var selfClosing := value != "" && value[|value| - 1] == '/';
    if selfClosing {
      value := TrimEnd(value[..|value| - 1]);
    }
    assert value[0..] == value;
    var offset := SkipName(value, 0);
    var name := value[..offset];
    if name == "" { return Err(InvalidTag); }
    var attributes: Attributes := map[];
    ghost var all := ParseAttributes(value[offset..], map[]);
    while offset < |value|
      invariant offset <= |value|
      invariant all == ParseAttributes(value[offset..], attributes)
      decreases |value| - offset
    {
      ghost var s := value[offset..];
      AttributeStep(s, attributes);
      offset := SkipSpaces(value, offset);
      assert s[SpaceRun(s)..] == value[offset..];
      if offset >= |value| {
        AttributeStep("", attributes);
        break;
      }
      var attribute, behindName := ReadName(value, offset, attributes);
      if attribute.Err? { return Err(attribute.error); }
      var text, next := ReadValue(value, behindName);
      if text.Err? { return Err(text.error); }
      var decoded := Decode(text.value);
      if decoded.Err? { return Err(decoded.error); }
      if Oversized(attribute.value, decoded.value) { return Err(OversizedAttribute); }
      attributes := Store(attributes, attribute.value, decoded.value);
      offset := next;
    }
    assert value[|value|..] == "";
    EndOfAttributes(attributes);
    return Ok(Tag(name, attributes, selfClosing));
  }

  lemma EndOfAttributes(attributes: Attributes)
    ensures ParseAttributes("", attributes) == Ok(attributes)
  {}

  /** One tag of the document: the state after it. */
  method ReadTagAt(st: State, rawTag: string) returns (next: Result<State, ParseError>)
    ensures next == if rawTag != "" && rawTag[0] == '/' then CloseTag(st, rawTag) else OpenTag(st, rawTag)
  {
    hide ParseStartTag, Trim, RotationText;
    if rawTag != "" && rawTag[0] == '/' {
      var closeName := Trim(rawTag[1..]);
      if closeName == "" || !(forall c :: c in closeName ==> IsNameChar(c)) { return Err(InvalidClosingTag); }
      if st.stack == [] { return Err(MismatchedTags); }
      var frame := st.stack[|st.stack| - 1];
      if frame.name != closeName { return Err(MismatchedTags); }
      return Ok(st.(stack := st.stack[..|st.stack| - 1]));
    }
    var parsed := ParseXmlStartTag(rawTag);
    if parsed.Err? { return Err(parsed.error); }
    var tag := parsed.value;
    if tag.name != "hierarchy" && tag.name != "node" { return Err(UnsupportedElement); }
    if tag.name == "hierarchy" {
      if st.seen || st.stack != [] { return Err(MultipleRoots); }
      return Ok(Push(st.(seen := true, rotation := RotationText(tag.attributes)), tag, None));
    }
    if !st.seen || st.stack == [] { return Err(OutsideRoot); }
    if |st.nodes| >= MAX_NODES || |st.stack| > MAX_DEPTH { return Err(StructuralLimit); }
    var parent := FindParent(st.stack);
    var node := Node(tag.attributes, parent, |st.stack|);
    return Ok(Push(st.(nodes := st.nodes + [node]), tag, Some(|st.nodes|)));
  }

  /** From the top of the stack down to the first frame with a node. */
  method FindParent(stack: seq<Frame>) returns (parent: Option<nat>)
    ensures parent == ParentOf(stack)
  {
    var i := |stack|;
    assert stack[..i] == stack;
    while i > 0
      invariant 0 <= i <= |stack|
      invariant ParentOf(stack) == ParentOf(stack[..i])
    {
      if stack[i - 1].node.Some? { return stack[i - 1].node; }
      assert stack[..i][..i - 1] == stack[..i - 1];
      i := i - 1;
    }
    return None;
  }

  method ScanDocument(xml: string) returns (result: Result<State, ParseError>)
    ensures result == ParseRest(xml, State([], [], "0", false))
  {
    hide IndexOf, Trim, ParseRest;
    var st := State([], [], "0", false);
    var offset := 0;
    ghost var all := ParseRest(xml, st);
    assert xml[0..] == xml;
    while offset < |xml|
      invariant offset <= |xml|
      invariant all == ParseRest(xml[offset..], st)
      decreases |xml| - offset
    {
      ghost var s := xml[offset..];
      var found := IndexOf(xml[offset..], "<");
      if found.None? {
        NoMoreTags(s, st);
        if Trim(xml[offset..]) != "" { return Err(UnexpectedText); }
        return Ok(st);
      }
      var tagStart := offset + found.value;
      assert s[..found.value] == xml[offset..tagStart];
      if Trim(xml[offset..tagStart]) != "" {
        TextBeforeTag(s, st);
        return Err(UnexpectedText);
      }
      SkipLeading(s, st);
      assert s[found.value..] == xml[tagStart..];
      assert s[found.value..found.value + 1][0] == '<';
      var consumed, next := ReadConstruct(xml, tagStart, st);
      if next.Err? { return next; }
      st := next.value;
      offset := consumed;
    }
    NothingLeft(st);
    assert xml[|xml|..] == "";
    return Ok(st);
  }

  /** What starts with `<` at `tagStart`: a comment, a declaration or a tag. */
  method ReadConstruct(xml: string, tagStart: nat, st: State) returns (offset: nat, next: Result<State, ParseError>)
    requires tagStart < |xml| && xml[tagStart] == '<'
    ensures next.Err? ==> ParseRest(xml[tagStart..], st) == Err(next.error)
    ensures next.Ok? ==>
            tagStart < offset <= |xml|
            && ParseRest(xml[tagStart..], st) == ParseRest(xml[offset..], next.value)
  {
    hide Trim, TagEnd, CloseTag, OpenTag, IndexOf, ParseRest, StartsWith;
    ghost var t := xml[tagStart..];
    ConstructSteps(t, st);
    if StartsWith(xml[tagStart..], "<!--") {
      LongEnough(t, "<!--");
      assert t[4..] == xml[tagStart + 4..];
      var end := IndexOf(xml[tagStart + 4..], "-->");
      if end.None? { return tagStart, Err(UnterminatedComment); }
      offset := tagStart + 4 + end.value + 3;
      assert t[4 + end.value + 3..] == xml[offset..];
      return offset, Ok(st);
    }
    if StartsWith(xml[tagStart..], "<?") {
      LongEnough(t, "<?");
      assert t[2..] == xml[tagStart + 2..];
      var end := IndexOf(xml[tagStart + 2..], "?>");
      if end.None? { return tagStart, Err(InvalidDeclaration); }
      offset := tagStart + 2 + end.value + 2;
      assert t[2 + end.value + 2..] == xml[offset..];
      return offset, Ok(st);
    }
    if StartsWith(xml[tagStart..], "<!") { return tagStart, Err(DeclarationNotAllowed); }
    assert t[1..] == xml[tagStart + 1..];
    var tagEnd := FindXmlTagEnd(xml, tagStart + 1);
    if tagEnd.None? { return tagStart, Err(UnterminatedTag); }
    var rawTag := Trim(xml[tagStart + 1..tagEnd.value]);
    ghost var end := TagEnd(t[1..], None).value;
    assert t[1..1 + end] == xml[tagStart + 1..tagEnd.value];
    next := ReadTagAt(st, rawTag);
    offset := tagEnd.value + 1;
    assert t[1 + end + 1..] == xml[offset..];
  }

  lemma LongEnough(s: string, p: string)
    requires StartsWith(s, p)
    ensures |p| <= |s|
  {}

  method ParseUiHierarchy(output: string) returns (result: Result<Hierarchy, ParseError>)
    ensures result == Parse(output)
    ensures result.Ok? ==> WellShaped(result.value.nodes)
  {
    hide Extract, ParseRest, WellShaped;
    var xml := Extract(output);
    if xml.Err? { return Err(xml.error); }
    var parsed := ScanDocument(xml.value);
    if parsed.Err? { return Err(parsed.error); }
    if !parsed.value.seen || parsed.value.stack != [] { return Err(Incomplete); }
    result := Ok(Hierarchy(parsed.value.nodes, parsed.value.rotation));
    AcceptedIsWellShaped(output);
  }
}
