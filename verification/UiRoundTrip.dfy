/**
 * Printing a forest of nodes as XML (sections 3.1 and 4.6 of XML 1.0) and
 * scanning it again gives the nodes in preorder, with the same attributes,
 * parents and depths.
 */
module UiRoundTrip {
  import opened Common
  import opened UiHierarchy

  // -------------------------------------------------------------- printing

  type Pairs = seq<(string, string)>

  /** First child, next sibling. */
  datatype Forest = Empty | Element(attributes: Pairs, children: Forest, siblings: Forest)

  /** The predefined entity of a character of the markup, section 4.6 of XML 1.0. */
  function EntityName(c: char): Option<string> {
    if c == '&' then Some("amp")
    else if c == '<' then Some("lt")
    else if c == '>' then Some("gt")
    else if c == '"' then Some("quot")
    else if c == '\'' then Some("apos")
    else None
  }

  function EscapeChar(c: char): string {
    if EntityName(c).Some? then "&" + EntityName(c).value + ";" else [c]
  }

  function Escape(s: string): string {
    if s == "" then "" else EscapeChar(s[0]) + Escape(s[1..])
  }

  function PrintAttribute(pair: (string, string)): string {
    " " + pair.0 + "=\"" + Escape(pair.1) + "\""
  }

  function PrintAttributes(pairs: Pairs): string {
    if pairs == [] then "" else PrintAttribute(pairs[0]) + PrintAttributes(pairs[1..])
  }

  /** A tag without its angle brackets. */
  function TagBody(name: string, pairs: Pairs, selfClosing: bool): string {
    name + PrintAttributes(pairs) + (if selfClosing then "/" else "")
  }

  function PrintForest(f: Forest): string {
    match f
    case Empty => ""
    case Element(attributes, children, siblings) =>
      "<" + TagBody("node", attributes, children.Empty?) + ">"
      + (if children.Empty? then "" else PrintForest(children) + "</node>")
      + PrintForest(siblings)
  }

  function PrintHierarchy(pairs: Pairs, f: Forest): string {
    "<" + TagBody("hierarchy", pairs, false) + ">" + PrintForest(f) + "</hierarchy>"
  }

  // ----------------------------------------------------------- what is meant

  predicate IsName(s: string) {
    s != "" && forall c :: c in s ==> IsNameChar(c)
  }

  predicate WellFormed(pairs: Pairs) {
    && (forall p :: p in pairs ==> IsName(p.0) && !Oversized(p.0, p.1))
    && (forall i, j :: 0 <= i < j < |pairs| ==> pairs[i].0 != pairs[j].0)
  }

  predicate WellFormedForest(f: Forest) {
    f.Element? ==> WellFormed(f.attributes) && WellFormedForest(f.children) && WellFormedForest(f.siblings)
  }

  /** The attributes as an object keeps them. */
  function Stored(known: Attributes, pairs: Pairs): Attributes
    decreases |pairs|
  {
    if pairs == [] then known else Stored(Store(known, pairs[0].0, pairs[0].1), pairs[1..])
  }

  function Count(f: Forest): nat {
    match f
    case Empty => 0
    case Element(_, children, siblings) => 1 + Count(children) + Count(siblings)
  }

  function Height(f: Forest): nat {
    match f
    case Empty => 0
    case Element(_, children, siblings) =>
      if 1 + Height(children) >= Height(siblings) then 1 + Height(children) else Height(siblings)
  }

  /** The nodes in preorder, for a forest whose first node has position `first`. */
  function Preorder(f: Forest, parent: Option<nat>, depth: nat, first: nat): (nodes: seq<Node>)
    ensures |nodes| == Count(f)
  {
    match f
    case Empty => []
    case Element(attributes, children, siblings) =>
      [Node(Stored(map[], attributes), parent, depth)]
      + Preorder(children, Some(first), depth + 1, first + 1)
      + Preorder(siblings, parent, depth, first + 1 + Count(children))
  }

  // --------------------------------------------------------------- entities

  lemma {:induction false} DecodeEscapedChar(c: char, rest: string)
    ensures Decode(EscapeChar(c) + rest) == Prepend(c, Decode(rest))
  {
    hide EntityAt;
    var s := EscapeChar(c) + rest;
    if EntityName(c).Some? {
      var name := EntityName(c).value;
      NamedEntityMatches(name, c, rest);
      assert s[1..] == name + ";" + rest;
      assert s[|name| + 2..] == rest;
    } else {
      assert s[1..] == rest;
    }
  }

  lemma {:induction false} NamedEntityMatches(name: string, c: char, rest: string)
    requires EntityName(c) == Some(name)
    ensures EntityAt(name + ";" + rest) == Stands(|name| + 2, c)
  {
    var s := name + ";" + rest;
    assert s[..|name|] == name && s[|name|] == ';';
    LowerCaseStays(name);
    assert NamedEntity(s, name, c) == Stands(|name| + 2, c);
    assert s[0] == name[0] != '#';
    OtherNames(s, name);
  }

  lemma {:induction false} LowerCaseStays(name: string)
    requires forall c :: c in name ==> 'a' <= c <= 'z'
    ensures LowerAll(name) == name
  {
    assert forall i :: 0 <= i < |name| ==> name[i] in name;
  }

  /** The five names start differently. */
  lemma {:induction false} OtherNames(s: string, name: string)
    requires name in ["amp", "lt", "gt", "quot", "apos"] && StartsWith(s, name)
    ensures forall other, c :: other in ["amp", "lt", "gt", "quot", "apos"] && other != name ==>
            NamedEntity(s, other, c) == NoEntity
  {
    forall other | other in ["amp", "lt", "gt", "quot", "apos"] && other != name && |s| >= |other| + 1
      ensures LowerAll(s[..|other|]) != other
    {
      assert s[0] == name[0] && s[1] == name[1];
      assert LowerAll(s[..|other|])[0] == Lower(s[0]) && LowerAll(s[..|other|])[1] == Lower(s[1]);
    }
  }

  lemma {:induction false} DecodeEscaped(s: string)
    ensures Decode(Escape(s)) == Ok(s)
    decreases |s|
  {
    if s != "" {
      DecodeEscapedChar(s[0], Escape(s[1..]));
      DecodeEscaped(s[1..]);
      assert s == [s[0]] + s[1..];
    }
  }

  predicate NoMarkup(s: string) {
    forall c :: c in s ==> c != '"' && c != '<' && c != '>' && c != '\''
  }

  lemma EscapedCharHasNoMarkup(c: char)
    ensures NoMarkup(EscapeChar(c))
  {}

  lemma NoMarkupAppend(x: string, y: string)
    requires NoMarkup(x) && NoMarkup(y)
    ensures NoMarkup(x + y)
  {}

  lemma {:induction false} EscapedHasNoMarkup(s: string)
    ensures NoMarkup(Escape(s))
    decreases |s|
  {
    if s != "" {
      EscapedHasNoMarkup(s[1..]);
      EscapedCharHasNoMarkup(s[0]);
      NoMarkupAppend(EscapeChar(s[0]), Escape(s[1..]));
    }
  }

  // ------------------------------------------------------------- attributes

  lemma {:induction false} NameRunIs(name: string, rest: string)
    requires (forall c :: c in name ==> IsNameChar(c)) && (rest == "" || !IsNameChar(rest[0]))
    ensures NameRun(name + rest) == |name|
    decreases |name|
  {
    if name == "" {
      assert name + rest == rest;
    } else {
      assert (name + rest)[1..] == name[1..] + rest;
      assert name[0] in name;
      NameRunIs(name[1..], rest);
    }
  }

  lemma {:induction false} QuoteIndexIs(value: string, rest: string)
    requires '"' !in value
    ensures QuoteIndex(value + "\"" + rest, '"') == |value|
    decreases |value|
  {
    if value == "" {
      assert value + "\"" + rest == "\"" + rest;
    } else {
      assert (value + "\"" + rest)[1..] == value[1..] + "\"" + rest;
      assert value[0] in value;
      QuoteIndexIs(value[1..], rest);
    }
  }

  lemma NoSpaceAhead(c: char, rest: string)
    requires c == '=' || c == '"'
    ensures SpaceRun([c] + rest) == 0 && ([c] + rest)[0..] == [c] + rest && ([c] + rest)[1..] == rest
  {}

  lemma {:induction false} ScanPrintedName(name: string, value: string, rest: string, known: Attributes)
    requires IsName(name) && name !in known && NoMarkup(value)
    ensures ScanName(name + (['='] + (['"'] + (value + "\"" + rest))), known)
            == Ok((name, ['"'] + (value + "\"" + rest)))
  {
    hide NameRun, IsSpace, IsNameChar, SpaceRun, IsName, NoMarkup, QuoteIndex;
    var quoted := ['"'] + (value + "\"" + rest);
    var after := ['='] + quoted;
    RunsOf(name, value, rest);
    assert (name + after)[..|name|] == name && (name + after)[|name|..] == after;
    NoSpaceAhead('=', quoted);
  }

  lemma {:induction false} ScanPrintedValue(name: string, value: string, rest: string)
    requires IsName(name) && NoMarkup(value)
    ensures ScanValue(['"'] + (value + "\"" + rest)) == Ok((value, rest))
  {
    hide NameRun, IsSpace, IsNameChar, SpaceRun, IsName, NoMarkup, QuoteIndex;
    var tail := value + "\"" + rest;
    RunsOf(name, value, rest);
    NoSpaceAhead('"', tail);
    assert tail[..|value|] == value && tail[|value| + 1..] == rest;
  }

  lemma {:induction false} ScanPrinted(name: string, value: string, rest: string, known: Attributes)
    requires IsName(name) && name !in known && NoMarkup(value)
    ensures ScanAttribute(name + "=\"" + value + "\"" + rest, known) == Ok(Scanned(name, value, rest))
  {
    hide ScanName, ScanValue, IsName, NoMarkup;
    assert name + "=\"" + value + "\"" + rest == name + (['='] + (['"'] + (value + "\"" + rest)));
    ScanPrintedName(name, value, rest, known);
    ScanPrintedValue(name, value, rest);
  }

  lemma {:induction false} RunsOf(name: string, value: string, rest: string)
    requires IsName(name) && NoMarkup(value)
    ensures var tail := value + "\"" + rest;
            NameRun(name + (['='] + (['"'] + tail))) == |name| && name != "" && QuoteIndex(tail, '"') == |value|
              && |value| < |tail|
  {
    var tail := value + "\"" + rest;
    MarkupIsNotSpace();
    NameRunIs(name, ['='] + (['"'] + tail));
    QuoteIndexIs(value, rest);
  }

  /** One attribute behind one space. */
  lemma {:induction false} ParseOneAttribute(s1: string, known: Attributes, scanned: Scanned, value: string)
    requires s1 != "" && !IsSpace(s1[0]) && ScanAttribute(s1, known) == Ok(scanned)
    requires Decode(scanned.raw) == Ok(value) && !Oversized(scanned.name, value)
    ensures ParseAttributes(" " + s1, known) == ParseAttributes(scanned.rest, Store(known, scanned.name, value))
  {
    hide ScanAttribute, Decode, Oversized;
    var s := " " + s1;
    assert s[1..] == s1;
    assert SpaceRun(s1) == 0 && SpaceRun(s) == 1;
  }

  lemma {:induction false} LaterNamesAreNew(pairs: Pairs, known: Attributes)
    requires WellFormed(pairs) && pairs != [] && forall p :: p in pairs ==> p.0 !in known
    ensures WellFormed(pairs[1..]) && forall p :: p in pairs[1..] ==> p.0 !in Store(known, pairs[0].0, pairs[0].1)
    ensures IsName(pairs[0].0) && !Oversized(pairs[0].0, pairs[0].1) && pairs[0].0 !in known
  {
    hide IsName, Oversized;
    assert pairs[0] in pairs;
    forall p | p in pairs[1..]
      ensures p in pairs && p.0 != pairs[0].0
    {
      var i :| 0 <= i < |pairs[1..]| && pairs[1..][i] == p;
      assert pairs[i + 1] == p;
    }
  }

  lemma {:induction false} NamesAreNotSpace(name: string)
    requires IsName(name)
    ensures name != "" && !IsSpace(name[0])
  {
    assert name[0] in name;
  }

  lemma {:induction false} ParsePrintedAttributes(pairs: Pairs, known: Attributes)
    requires WellFormed(pairs) && forall p :: p in pairs ==> p.0 !in known
    ensures ParseAttributes(PrintAttributes(pairs), known) == Ok(Stored(known, pairs))
    decreases |pairs|
  {
    hide ScanAttribute, Decode, Oversized, IsName, IsSpace, WellFormed, Escape, Store;
    if pairs == [] {
      assert SpaceRun("") == 0;
    } else {
      var name, value := pairs[0].0, pairs[0].1;
      var rest := PrintAttributes(pairs[1..]);
      var s1 := name + "=\"" + Escape(value) + "\"" + rest;
      LaterNamesAreNew(pairs, known);
      NamesAreNotSpace(name);
      EscapedHasNoMarkup(value);
      ScanPrinted(name, Escape(value), rest, known);
      DecodeEscaped(value);
      ParseOneAttribute(s1, known, Scanned(name, Escape(value), rest), value);
      assert PrintAttributes(pairs) == " " + s1;
      ParsePrintedAttributes(pairs[1..], Store(known, name, value));
    }
  }

  // -------------------------------------------------------------- start tags

  lemma NothingToTrim(s: string)
    requires s != "" && !IsSpace(s[0]) && !IsSpace(s[|s| - 1])
    ensures Trim(s) == s && TrimEnd(s) == s
  {}

  /** Printed attributes end in a quote. */
  lemma {:induction false} AttributesEnd(pairs: Pairs)
    ensures pairs != [] ==> PrintAttributes(pairs) != "" && PrintAttributes(pairs)[|PrintAttributes(pairs)| - 1] == '"'
                            && PrintAttributes(pairs)[0] == ' '
    ensures pairs == [] ==> PrintAttributes(pairs) == ""
    decreases |pairs|
  {
    if pairs != [] {
      AttributesEnd(pairs[1..]);
    }
  }

  lemma MarkupIsNotSpace()
    ensures !IsSpace('n') && !IsSpace('h') && !IsSpace('e') && !IsSpace('y') && !IsSpace('"') && !IsSpace('/')
            && !IsSpace('=')
    ensures !IsNameChar(' ') && !IsNameChar('=') && !IsNameChar('"')
    ensures IsName("node") && IsName("hierarchy")
  {}

  /** A tag that needs no trimming, from its parts. */
  lemma {:induction false} TagFromParts(name: string, text: string, selfClosing: bool, attributes: Attributes)
    requires name in ["node", "hierarchy"] && (text == "" || (text[0] == ' ' && text[|text| - 1] == '"'))
    requires ParseAttributes(text, map[]) == Ok(attributes)
    ensures var body := name + text + (if selfClosing then "/" else "");
            ParseStartTag(body) == Ok(Tag(name, attributes, selfClosing)) && Trim(body) == body
  {
    hide ParseAttributes, NameRun, Trim, TrimEnd, IsSpace, IsNameChar;
    MarkupIsNotSpace();
    var value := name + text;
    var body := value + (if selfClosing then "/" else "");
    assert value[0] == name[0] && value[|value| - 1] == if text == "" then name[|name| - 1] else '"';
    NothingToTrim(value);
    NothingToTrim(body);
    assert selfClosing ==> body[..|body| - 1] == value;
    assert !selfClosing ==> body == value;
    NameRunIs(name, text);
    assert value[..|name|] == name && value[|name|..] == text;
  }

  lemma {:induction false} ParsePrintedTag(name: string, pairs: Pairs, selfClosing: bool)
    requires name in ["node", "hierarchy"] && WellFormed(pairs)
    ensures ParseStartTag(TagBody(name, pairs, selfClosing)) == Ok(Tag(name, Stored(map[], pairs), selfClosing))
    ensures Trim(TagBody(name, pairs, selfClosing)) == TagBody(name, pairs, selfClosing)
  {
    hide ParseAttributes, ParseStartTag, Trim, WellFormed, Stored, PrintAttributes;
    AttributesEnd(pairs);
    ParsePrintedAttributes(pairs, map[]);
    TagFromParts(name, PrintAttributes(pairs), selfClosing, Stored(map[], pairs));
  }

  // ---------------------------------------------------------------- tag ends

  function Shift(r: Option<nat>, n: nat): Option<nat> {
    if r.None? then None else Some(r.value + n)
  }

  lemma {:induction false} PlainText(s: string, rest: string)
    requires forall c :: c in s ==> c != '"' && c != '\'' && c != '>'
    ensures TagEnd(s + rest, None) == Shift(TagEnd(rest, None), |s|)
    decreases |s|
  {
    if s == "" {
      assert s + rest == rest;
    } else {
      assert (s + rest)[1..] == s[1..] + rest;
      forall i | 0 <= i < |s| - 1
        ensures s[1..][i] == s[i + 1] && s[i + 1] in s
      {}
      assert s[0] in s;
      PlainText(s[1..], rest);
    }
  }

  lemma {:induction false} QuotedText(s: string, rest: string)
    requires '"' !in s
    ensures TagEnd(s + "\"" + rest, Some('"')) == Shift(TagEnd(rest, None), |s| + 1)
    decreases |s|
  {
    if s == "" {
      assert s + "\"" + rest == "\"" + rest;
      assert ("\"" + rest)[1..] == rest;
    } else {
      assert (s + "\"" + rest)[1..] == s[1..] + "\"" + rest;
      assert s[0] in s;
      QuotedText(s[1..], rest);
    }
  }

  lemma {:induction false} OneAttributeHasNoEnd(name: string, value: string, later: string)
    requires IsName(name) && NoMarkup(value)
    ensures TagEnd(" " + name + "=\"" + value + "\"" + later, None) == Shift(TagEnd(later, None), |name| + |value| + 4)
  {
    hide TagEnd;
    var plain := " " + name + "=";
    assert " " + name + "=\"" + value + "\"" + later == plain + ("\"" + (value + "\"" + later));
    PlainText(plain, "\"" + (value + "\"" + later));
    OpeningQuote(value + "\"" + later);
    QuotedText(value, later);
  }

  lemma {:induction false} AttributesHaveNoEnd(pairs: Pairs, rest: string)
    requires forall p :: p in pairs ==> IsName(p.0)
    ensures TagEnd(PrintAttributes(pairs) + rest, None) == Shift(TagEnd(rest, None), |PrintAttributes(pairs)|)
    decreases |pairs|
  {
    hide TagEnd, IsName, NoMarkup, Escape;
    if pairs == [] {
      assert PrintAttributes(pairs) + rest == rest;
    } else {
      var name, value := pairs[0].0, Escape(pairs[0].1);
      var later := PrintAttributes(pairs[1..]) + rest;
      assert pairs[0] in pairs;
      assert PrintAttributes(pairs) + rest == " " + name + "=\"" + value + "\"" + later;
      EscapedHasNoMarkup(pairs[0].1);
      OneAttributeHasNoEnd(name, value, later);
      AttributesHaveNoEnd(pairs[1..], rest);
    }
  }

  lemma {:induction false} OpeningQuote(rest: string)
    ensures TagEnd("\"" + rest, None) == Shift(TagEnd(rest, Some('"')), 1)
  {
    assert ("\"" + rest)[1..] == rest;
  }

  lemma {:induction false} TagEndsThere(name: string, pairs: Pairs, selfClosing: bool, rest: string)
    requires name in ["node", "hierarchy"] && WellFormed(pairs)
    ensures TagEnd(TagBody(name, pairs, selfClosing) + ">" + rest, None) == Some(|TagBody(name, pairs, selfClosing)|)
  {
    hide TagEnd, PrintAttributes, IsName, Oversized;
    var slash := if selfClosing then "/" else "";
    assert TagBody(name, pairs, selfClosing) + ">" + rest == name + (PrintAttributes(pairs) + (slash + (">" + rest)));
    PlainText(name, PrintAttributes(pairs) + (slash + (">" + rest)));
    AttributesHaveNoEnd(pairs, slash + (">" + rest));
    PlainText(slash, ">" + rest);
    EndsAtOnce(rest);
  }

  lemma EndsAtOnce(rest: string)
    ensures TagEnd(">" + rest, None) == Some(0)
  {}

  // --------------------------------------------------------------- documents

  lemma {:induction false} TagStartsHere(rest: string)
    ensures IndexOf("<" + rest, "<") == Some(0) && Trim(("<" + rest)[..0]) == "" && ("<" + rest)[0..] == "<" + rest
  {
    assert ("<" + rest)[..1] == "<";
    assert ("<" + rest)[..0] == "";
    assert TrimStart("") == "" && TrimEnd("") == "";
  }

  /** A tag whose body starts like a name or a slash is read as a tag. */
  lemma {:induction false} ReadTag(body: string, rest: string, st: State)
    requires body != "" && body[0] != '!' && body[0] != '?' && Trim(body) == body
    requires TagEnd(body + ">" + rest, None) == Some(|body|)
    ensures ParseRest("<" + body + ">" + rest, st)
         == var next := if body[0] == '/' then CloseTag(st, body) else OpenTag(st, body);
            if next.Err? then next else ParseRest(rest, next.value)
  {
    hide IndexOf, Trim, TagEnd, CloseTag, OpenTag;
    var t := "<" + (body + ">" + rest);
    assert "<" + body + ">" + rest == t;
    TagStartsHere(body + ">" + rest);
    assert t[1] == body[0];
    assert t[1..] == body + ">" + rest;
    assert t[1..1 + |body|] == body;
    assert t[1 + |body| + 1..] == rest;
  }

  lemma {:induction false} ReadOpening(name: string, pairs: Pairs, selfClosing: bool, rest: string, st: State)
    requires name in ["node", "hierarchy"] && WellFormed(pairs)
    ensures ParseRest("<" + TagBody(name, pairs, selfClosing) + ">" + rest, st)
         == var next := OpenTag(st, TagBody(name, pairs, selfClosing));
            if next.Err? then next else ParseRest(rest, next.value)
  {
    hide ParseRest, TagEnd, OpenTag, Trim, WellFormed;
    TagEndsThere(name, pairs, selfClosing, rest);
    ParsePrintedTag(name, pairs, selfClosing);
    var body := TagBody(name, pairs, selfClosing);
    assert body[0] == name[0];
    ReadTag(body, rest, st);
  }

  lemma {:induction false} CloseNamed(name: string, st: State)
    requires name in ["node", "hierarchy"] && st.stack != [] && st.stack[|st.stack| - 1].name == name
    ensures CloseTag(st, "/" + name) == Ok(st.(stack := st.stack[..|st.stack| - 1]))
    ensures Trim("/" + name) == "/" + name
  {
    hide Trim, IsSpace, IsNameChar;
    MarkupIsNotSpace();
    var body := "/" + name;
    NothingToTrim(body);
    NothingToTrim(name);
    assert body[1..] == name;
  }

  lemma {:induction false} ReadClosing(name: string, rest: string, st: State)
    requires name in ["node", "hierarchy"] && st.stack != [] && st.stack[|st.stack| - 1].name == name
    ensures ParseRest("</" + name + ">" + rest, st) == ParseRest(rest, st.(stack := st.stack[..|st.stack| - 1]))
  {
    hide ParseRest, TagEnd, Trim, CloseTag;
    var body := "/" + name;
    CloseNamed(name, st);
    assert body + ">" + rest == body + (">" + rest);
    PlainText(body, ">" + rest);
    EndsAtOnce(rest);
    assert "</" + name + ">" + rest == "<" + body + ">" + rest;
    ReadTag(body, rest, st);
  }

  /** The document is open. */
  predicate Inside(st: State) {
    st.seen && st.stack != []
  }

  function NodeHere(st: State, pairs: Pairs): Node {
    Node(Stored(map[], pairs), ParentOf(st.stack), |st.stack|)
  }

  /** Reading a node's tag appends the node; a tag with content also opens a frame. */
  lemma {:induction false} ReadNode(pairs: Pairs, leaf: bool, rest: string, st: State)
    requires WellFormed(pairs) && Inside(st) && |st.nodes| < MAX_NODES && |st.stack| <= MAX_DEPTH
    ensures ParseRest("<" + TagBody("node", pairs, leaf) + ">" + rest, st)
         == ParseRest(rest, st.(nodes := st.nodes + [NodeHere(st, pairs)],
                                stack := if leaf then st.stack else st.stack + [Frame("node", Some(|st.nodes|))]))
  {
    hide ParseRest, ParseStartTag, WellFormed, TagBody, Stored, ParentOf;
    ReadOpening("node", pairs, leaf, rest, st);
    ParsePrintedTag("node", pairs, leaf);
  }

  lemma {:induction false} PrintUnfolds(f: Forest, rest: string)
    requires f.Element?
    ensures PrintForest(f) + rest
         == "<" + TagBody("node", f.attributes, f.children.Empty?) + ">"
            + ((if f.children.Empty? then "" else PrintForest(f.children) + "</node>")
               + (PrintForest(f.siblings) + rest))
  {
    hide TagBody;
  }

  /** The children of a node that was just opened, and its closing tag. */
  lemma {:induction false} ReadChildren(f: Forest, node: Node, later: string, st: State)
    requires WellFormedForest(f) && Inside(st)
    requires |st.nodes| + 1 + Count(f) <= MAX_NODES && |st.stack| + 1 + Height(f) <= MAX_DEPTH + 1
    ensures ParseRest(PrintForest(f) + "</node>" + later,
                      st.(nodes := st.nodes + [node], stack := st.stack + [Frame("node", Some(|st.nodes|))]))
         == ParseRest(later,
                      st.(nodes := st.nodes + [node] + Preorder(f, Some(|st.nodes|), |st.stack| + 1, |st.nodes| + 1)))
    decreases f, 3
  {
    hide ParseRest, PrintForest, Preorder, WellFormedForest;
    var pushed := st.(nodes := st.nodes + [node], stack := st.stack + [Frame("node", Some(|st.nodes|))]);
    var full := pushed.(nodes := pushed.nodes + Preorder(f, Some(|st.nodes|), |st.stack| + 1, |st.nodes| + 1));
    assert ParentOf(pushed.stack) == Some(|st.nodes|);
    assert PrintForest(f) + "</node>" + later == PrintForest(f) + ("</node>" + later);
    ReadForest(f, "</node>" + later, pushed);
    assert "</node>" + later == "</" + "node" + ">" + later;
    ReadClosing("node", later, full);
    assert pushed.stack[..|st.stack|] == st.stack;
  }

  /** The first node of a forest with everything below it. */
  lemma {:induction false} ReadTree(f: Forest, later: string, st: State)
    requires f.Element? && WellFormed(f.attributes) && WellFormedForest(f.children) && Inside(st)
    requires |st.nodes| + 1 + Count(f.children) <= MAX_NODES && |st.stack| + 1 + Height(f.children) <= MAX_DEPTH + 1
    ensures ParseRest("<" + TagBody("node", f.attributes, f.children.Empty?) + ">"
                      + ((if f.children.Empty? then "" else PrintForest(f.children) + "</node>") + later), st)
         == ParseRest(later, st.(nodes := st.nodes + [NodeHere(st, f.attributes)]
                                          + Preorder(f.children, Some(|st.nodes|), |st.stack| + 1, |st.nodes| + 1)))
    decreases f, 1
  {
    hide ParseRest, PrintForest, WellFormed, TagBody, NodeHere, ParentOf, WellFormedForest;
    var leaf := f.children.Empty?;
    var node := NodeHere(st, f.attributes);
    var inner := if leaf then "" else PrintForest(f.children) + "</node>";
    ReadNode(f.attributes, leaf, inner + later, st);
    if leaf {
      assert "" + later == later;
      assert st.nodes + [node] + [] == st.nodes + [node];
    } else {
      ReadChildren(f.children, node, later, st);
    }
  }

  lemma {:induction false} ReadForest(f: Forest, rest: string, st: State)
    requires WellFormedForest(f) && Inside(st)
    requires |st.nodes| + Count(f) <= MAX_NODES && |st.stack| + Height(f) <= MAX_DEPTH + 1
    ensures ParseRest(PrintForest(f) + rest, st)
         == ParseRest(rest, st.(nodes := st.nodes + Preorder(f, ParentOf(st.stack), |st.stack|, |st.nodes|)))
    decreases f, 2
  {
    hide ParseRest, PrintForest, WellFormed, TagBody, NodeHere, ParentOf, Preorder;
    if f.Empty? {
      assert PrintForest(f) + rest == rest by { PrintsNothing(); }
      assert st.nodes + Preorder(Empty, ParentOf(st.stack), |st.stack|, |st.nodes|) == st.nodes;
    } else {
      var node := NodeHere(st, f.attributes);
      var below := Preorder(f.children, Some(|st.nodes|), |st.stack| + 1, |st.nodes| + 1);
      var beside := Preorder(f.siblings, ParentOf(st.stack), |st.stack|, |st.nodes| + 1 + Count(f.children));
      PrintUnfolds(f, rest);
      ReadTree(f, PrintForest(f.siblings) + rest, st);
      ReadForest(f.siblings, rest, st.(nodes := st.nodes + [node] + below));
      PreorderUnfolds(f, st);
      assert st.nodes + [node] + below + beside == st.nodes + ([node] + below + beside);
    }
  }

  lemma {:induction false} PreorderUnfolds(f: Forest, st: State)
    requires f.Element?
    ensures Preorder(f, ParentOf(st.stack), |st.stack|, |st.nodes|)
         == [NodeHere(st, f.attributes)]
            + Preorder(f.children, Some(|st.nodes|), |st.stack| + 1, |st.nodes| + 1)
            + Preorder(f.siblings, ParentOf(st.stack), |st.stack|, |st.nodes| + 1 + Count(f.children))
  {
    hide ParentOf, Stored;
  }

  lemma PrintsNothing()
    ensures PrintForest(Empty) == ""
  {}

  lemma {:induction false} ReadRoot(pairs: Pairs, rest: string)
    requires WellFormed(pairs)
    ensures ParseRest("<" + TagBody("hierarchy", pairs, false) + ">" + rest, State([], [], "0", false))
         == ParseRest(rest, State([], [Frame("hierarchy", None)], RotationText(Stored(map[], pairs)), true))
  {
    hide ParseRest, ParseStartTag, WellFormed, TagBody, Stored, RotationText;
    ReadOpening("hierarchy", pairs, false, rest, State([], [], "0", false));
    ParsePrintedTag("hierarchy", pairs, false);
    assert [] + [Frame("hierarchy", None)] == [Frame("hierarchy", None)];
  }

  /** The whole document, read from an empty state. */
  lemma {:induction false} ReadHierarchy(pairs: Pairs, f: Forest)
    requires WellFormed(pairs) && WellFormedForest(f) && Count(f) <= MAX_NODES && Height(f) <= MAX_DEPTH
    ensures ParseRest(PrintHierarchy(pairs, f), State([], [], "0", false))
         == Ok(State(Preorder(f, None, 1, 0), [], RotationText(Stored(map[], pairs)), true))
  {
    hide ParseRest, WellFormed, WellFormedForest, TagBody, PrintForest, Preorder, Stored, RotationText;
    var tail := "</" + "hierarchy" + ">" + "";
    assert PrintHierarchy(pairs, f) == "<" + TagBody("hierarchy", pairs, false) + ">" + (PrintForest(f) + tail);
    ReadRoot(pairs, PrintForest(f) + tail);
    var root := State([], [Frame("hierarchy", None)], RotationText(Stored(map[], pairs)), true);
    assert ParentOf(root.stack) == None;
    ReadForest(f, tail, root);
    var full := root.(nodes := [] + Preorder(f, None, 1, 0));
    ReadClosing("hierarchy", "", full);
    assert full.nodes == Preorder(f, None, 1, 0) && full.stack[..0] == [];
    NothingLeft(full.(stack := []));
  }

  // ------------------------------------------------------------- extraction

  lemma {:induction false} FirstIs(s: string, p: string, at: nat)
    requires p != "" && at <= |s| && StartsWith(s[at..], p) && forall i :: 0 <= i < at ==> !StartsWith(s[i..], p)
    ensures IndexOf(s, p) == Some(at)
    decreases at
  {
    assert s[0..] == s;
    if at != 0 {
      assert !StartsWith(s[0..], p);
      assert forall i :: 0 <= i < at - 1 ==> s[1..][i..] == s[i + 1..];
      assert s[1..][at - 1..] == s[at..];
      FirstIs(s[1..], p, at - 1);
    }
  }

  lemma {:induction false} LastIs(s: string, p: string, at: Option<nat>)
    requires p != "" && (at.Some? ==> at.value <= |s| && StartsWith(s[at.value..], p))
    requires forall i :: 0 <= i <= |s| && (at.None? || at.value < i) ==> !StartsWith(s[i..], p)
    ensures LastIndexOf(s, p) == at
    decreases |s|
  {
    assert s[0..] == s;
    if s != "" {
      assert forall i :: 0 <= i <= |s| - 1 ==> s[1..][i..] == s[i + 1..];
      if at.None? || at.value == 0 {
        LastIs(s[1..], p, None);
        assert at.None? ==> !StartsWith(s[0..], p);
      } else {
        LastIs(s[1..], p, Some(at.value - 1));
      }
    }
  }

  /** Text around the document in which no other document begins or ends. */
  ghost predicate QuietAround(output: string, start: nat, end: nat) {
    && (forall i :: 0 <= i < start && i <= |output| ==> !StartsWith(output[i..], OPENING))
    && (forall i :: end < i <= |output| ==> !StartsWith(output[i..], CLOSING))
  }

  lemma {:induction false} DocumentEnds(pairs: Pairs, f: Forest)
    ensures var doc := PrintHierarchy(pairs, f);
            |doc| >= |CLOSING| && doc[|doc| - |CLOSING|..] == CLOSING && StartsWith(doc, OPENING)
  {
    hide PrintForest, PrintAttributes;
    var doc := PrintHierarchy(pairs, f);
    assert doc == OPENING + (PrintAttributes(pairs) + ">" + PrintForest(f) + CLOSING);
    assert doc == (OPENING + PrintAttributes(pairs) + ">" + PrintForest(f)) + CLOSING;
  }

  /**
   * Scanning the tool's output around a printed forest within the limits gives its nodes in preorder, with the same
   * attributes (but for `__proto__`, which an object does not store), parents and depths.
   */
  lemma {:induction false} PrintedForestIsRead(before: string, pairs: Pairs, f: Forest, behind: string)
    requires WellFormed(pairs) && WellFormedForest(f) && Count(f) <= MAX_NODES && Height(f) <= MAX_DEPTH
    requires Utf8Length(before + PrintHierarchy(pairs, f) + behind) <= MAX_BYTES
    requires QuietAround(before + PrintHierarchy(pairs, f) + behind, |before|,
                         |before| + |PrintHierarchy(pairs, f)| - |CLOSING|)
    ensures Parse(before + PrintHierarchy(pairs, f) + behind)
         == Ok(Hierarchy(Preorder(f, None, 1, 0), RotationText(Stored(map[], pairs))))
  {
    hide ParseRest, PrintHierarchy, Utf8Length, WellFormed, WellFormedForest, IndexOf, LastIndexOf, Stored, Preorder,
         RotationText;
    var doc := PrintHierarchy(pairs, f);
    var output := before + doc + behind;
    var end := |before| + |doc| - |CLOSING|;
    DocumentEnds(pairs, f);
    assert output[|before|..] == doc + behind;
    assert output[end..] == CLOSING + behind;
    FirstIs(output, OPENING, |before|);
    LastIs(output, CLOSING, Some(end));
    assert output[|before|..end + |CLOSING|] == doc;
    ReadHierarchy(pairs, f);
  }

  /** Without `__proto__` the attributes are exactly those printed. */
  lemma {:induction false} StoredIsPrinted(pairs: Pairs, known: Attributes, i: nat)
    requires WellFormed(pairs) && i < |pairs|
    ensures pairs[i].0 != "__proto__" ==>
            pairs[i].0 in Stored(known, pairs)
            && Stored(known, pairs)[pairs[i].0] == pairs[i].1
    ensures (forall name :: name in Stored(known, pairs) ==> name in known || exists p :: p in pairs && p.0 == name)
    decreases |pairs|
  {
    hide IsName, Oversized;
    var next := Store(known, pairs[0].0, pairs[0].1);
    assert forall k :: 0 <= k < |pairs| - 1 ==> pairs[1..][k] == pairs[k + 1];
    assert pairs[0] in pairs;
    if |pairs| > 1 {
      StoredIsPrinted(pairs[1..], next, if i == 0 then 0 else i - 1);
      if i == 0 {
        KnownStays(pairs[1..], next, pairs[0].0);
      }
    }
  }

  lemma {:induction false} KnownStays(pairs: Pairs, known: Attributes, name: string)
    requires forall p :: p in pairs ==> p.0 != name
    ensures name in known ==> name in Stored(known, pairs) && Stored(known, pairs)[name] == known[name]
    decreases |pairs|
  {
    if pairs != [] {
      assert pairs[0] in pairs;
      KnownStays(pairs[1..], Store(known, pairs[0].0, pairs[0].1), name);
    }
  }

  // ------------------------------------------------------ what is refused

  /** A closing tag is accepted exactly when it names the innermost open element, which it closes. */
  lemma {:induction false} ClosingIff(st: State, name: string, before: string, behind: string)
    requires IsName(name) && (forall c :: c in before + behind ==> IsSpace(c))
    ensures var closed := CloseTag(st, "/" + before + name + behind);
      if st.stack != [] && st.stack[|st.stack| - 1].name == name
      then closed == Ok(st.(stack := st.stack[..|st.stack| - 1])) else closed.Err?
  {
    hide IsSpace, IsNameChar, TrimStart, TrimEnd;
    assert ("/" + before + name + behind)[1..] == before + name + behind;
    TrimmedName(before, name, behind);
  }

  lemma {:induction false} TrimmedName(before: string, name: string, behind: string)
    requires IsName(name) && (forall c :: c in before + behind ==> IsSpace(c))
    ensures Trim(before + name + behind) == name
  {
    hide IsSpace, IsNameChar;
    assert name[0] in name && name[|name| - 1] in name;
    assert !IsSpace(name[0]) && !IsSpace(name[|name| - 1]) by { NamesHaveNoSpace(name); }
    SpacesInFront(before, name + behind);
    assert before + name + behind == before + (name + behind);
    SpacesBehind(name, behind);
  }

  lemma NamesHaveNoSpace(name: string)
    requires IsName(name)
    ensures forall c :: c in name ==> !IsSpace(c)
  {}

  lemma {:induction false} SpacesInFront(spaces: string, rest: string)
    requires (forall c :: c in spaces ==> IsSpace(c)) && rest != "" && !IsSpace(rest[0])
    ensures TrimStart(spaces + rest) == rest
    decreases |spaces|
  {
    hide IsSpace;
    if spaces == "" {
      assert spaces + rest == rest;
    } else {
      assert spaces[0] in spaces && forall c :: c in spaces[1..] ==> c in spaces;
      assert (spaces + rest)[1..] == spaces[1..] + rest;
      SpacesInFront(spaces[1..], rest);
    }
  }

  lemma {:induction false} SpacesBehind(text: string, spaces: string)
    requires (forall c :: c in spaces ==> IsSpace(c)) && text != "" && !IsSpace(text[|text| - 1])
    ensures TrimEnd(text + spaces) == text
    decreases |spaces|
  {
    hide IsSpace;
    if spaces == "" {
      assert text + spaces == text;
    } else {
      var n := |spaces| - 1;
      assert spaces[n] in spaces && forall c :: c in spaces[..n] ==> c in spaces;
      assert (text + spaces)[..|text| + n] == text + spaces[..n];
      SpacesBehind(text, spaces[..n]);
    }
  }

  /**
   * A printed opening tag is accepted exactly when it is the first `hierarchy`, outside
   * of everything, or a `node` inside it while there is room for one more, and as deep.
   */
  lemma {:induction false} OpeningIff(st: State, name: string, pairs: Pairs, selfClosing: bool)
    requires name in ["node", "hierarchy"] && WellFormed(pairs)
    ensures OpenTag(st, TagBody(name, pairs, selfClosing)).Ok?
       <==> (name == "hierarchy" && !st.seen && st.stack == [])
            || (name == "node" && st.seen && st.stack != [] && |st.nodes| < 10_000 && |st.stack| <= 256)
  {
    hide ParseStartTag, TagBody, WellFormed;
    ParsePrintedTag(name, pairs, selfClosing);
  }
}
