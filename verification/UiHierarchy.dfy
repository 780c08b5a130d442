/**
 * The hand-written scanner for uiautomator's XML (mobile/src/ui-target.ts:172-391)
 * as a function of the text that is still to be read.
 */
module UiHierarchy {
  import opened Common

  const MAX_BYTES := 1024 * 1024
  const MAX_NODES := 10_000
  const MAX_DEPTH := 256
  const MAX_TEXT := 4 * 1024
  const MAX_ATTRIBUTE := 8 * 1024

  type Attributes = map<string, string>

  /** `parent` is the position of the parent among the nodes. */
  datatype Node = Node(attributes: Attributes, parent: Option<nat>, depth: nat)

  datatype Frame = Frame(name: string, node: Option<nat>)

  datatype ParseError =
    | TooLarge | NotReturned | UnexpectedText | UnterminatedComment | InvalidDeclaration | DeclarationNotAllowed
    | UnterminatedTag | InvalidClosingTag | MismatchedTags | InvalidTag | InvalidAttribute | Unquoted
    | UnterminatedAttribute | InvalidEntity | OversizedAttribute | UnsupportedElement | MultipleRoots
    | OutsideRoot | StructuralLimit | Incomplete

  datatype Hierarchy = Hierarchy(nodes: seq<Node>, rotation: string)

  // ----------------------------------------------------------- characters

  /** What `\s` and `trim` take for white space. */
  predicate IsSpace(c: char) {
    || c == ' ' || c == '\t' || c == '\n' || c == '\r' || c == '\U{000B}' || c == '\U{000C}' || c == '\U{00A0}'
    || c == '\U{1680}' || '\U{2000}' <= c <= '\U{200A}' || c == '\U{2028}' || c == '\U{2029}' || c == '\U{202F}'
    || c == '\U{205F}' || c == '\U{3000}' || c == '\U{FEFF}'
  }

  predicate IsNameChar(c: char) {
    || 'A' <= c <= 'Z' || 'a' <= c <= 'z' || '0' <= c <= '9'
    || c == '_' || c == '.' || c == ':' || c == '-'
  }

  function TrimStart(s: string): string {
    if s != "" && IsSpace(s[0]) then TrimStart(s[1..]) else s
  }

  function TrimEnd(s: string): string {
    if s != "" && IsSpace(s[|s| - 1]) then TrimEnd(s[..|s| - 1]) else s
  }

  function Trim(s: string): string {
    TrimEnd(TrimStart(s))
  }

  /** Lengths in UTF-16 code units and in UTF-8 bytes. */
  function Utf16Length(s: string): nat {
    if s == "" then 0 else (if s[0] as int > 0xFFFF then 2 else 1) + Utf16Length(s[1..])
  }

  function Utf8Length(s: string): nat {
    if s == "" then 0
    else
      (if s[0] as int < 0x80 then 1 else if s[0] as int < 0x800 then 2 else if s[0] as int <= 0xFFFF then 3 else 4)
      + Utf8Length(s[1..])
  }

  predicate StartsWith(s: string, p: string) {
    |p| <= |s| && s[..|p|] == p
  }

  /** The first position of a pattern. */
  function IndexOf(s: string, p: string): (r: Option<nat>)
    ensures r.Some? ==> r.value + |p| <= |s| && s[r.value..r.value + |p|] == p
  {
    if StartsWith(s, p) then Some(0)
    else if s == "" then None
    else
      var later := IndexOf(s[1..], p);
      if later.None? then None else Some(later.value + 1)
  }

  /** The last position of a pattern. */
  function LastIndexOf(s: string, p: string): (r: Option<nat>)
    ensures r.Some? ==> r.value + |p| <= |s| && s[r.value..r.value + |p|] == p
  {
    if s == "" then (if p == "" then Some(0) else None)
    else
      var later := LastIndexOf(s[1..], p);
      if later.Some? then Some(later.value + 1) else if StartsWith(s, p) then Some(0) else None
  }

  /** How many leading characters are in a class. */
  function SpaceRun(s: string): (n: nat)
    ensures n <= |s|
  {
    if s != "" && IsSpace(s[0]) then 1 + SpaceRun(s[1..]) else 0
  }

  function NameRun(s: string): (n: nat)
    ensures n <= |s|
  {
    if s != "" && IsNameChar(s[0]) then 1 + NameRun(s[1..]) else 0
  }

  // ------------------------------------------------------------- entities

  function Lower(c: char): char {
    if 'A' <= c <= 'Z' then (c as int + 32) as char else c
  }

  function LowerAll(s: string): string {
    seq(|s|, i requires 0 <= i < |s| => Lower(s[i]))
  }

  function Digit(c: char, radix: nat): (r: Option<nat>)
    ensures r.Some? ==> r.value < radix
  {
    var d := if '0' <= c <= '9' then c as int - '0' as int
             else if 'a' <= Lower(c) <= 'f' then Lower(c) as int - 'a' as int + 10 else 16;
    if d < radix then Some(d) else None
  }

  function DigitRun(s: string, radix: nat): (n: nat)
    ensures n <= |s|
  {
    if s != "" && Digit(s[0], radix).Some? then 1 + DigitRun(s[1..], radix) else 0
  }

  function NumberOf(s: string, radix: nat): nat {
    if s == "" then 0
    else NumberOf(s[..|s| - 1], radix) * radix + Digit(s[|s| - 1], radix).GetOr(0)
  }

  datatype Entity = NoEntity | Stands(length: nat, c: char) | Invalid

  predicate ScalarValue(n: nat) {
    n < 0xD800 || 0xE000 <= n <= 0x10FFFF
  }

  /** `s` starts behind `&#` or `&#x`; `before` characters of the entity came first. */
  function NumericEntity(s: string, radix: nat, before: nat): Entity {
    var n := DigitRun(s, radix);
    if n == 0 || n >= |s| || s[n] != ';' then NoEntity
    else if !ScalarValue(NumberOf(s[..n], radix)) then Invalid
    else Stands(before + n + 1, NumberOf(s[..n], radix) as char)
  }

  /** Names match in any case, but only the lower-case spelling stands for something. */
  function NamedEntity(s: string, name: string, c: char): Entity {
    if |s| < |name| + 1 || LowerAll(s[..|name|]) != name || s[|name|] != ';' then NoEntity
    else if s[..|name|] == name then Stands(|name| + 2, c)
    else Invalid
  }

  /** What an ampersand starts; `s` is the text behind it. */
  function EntityAt(s: string): Entity {
    if s == "" then NoEntity
    else if s[0] == '#' then
      if |s| >= 2 && s[1] in "xX" then NumericEntity(s[2..], 16, 3) else NumericEntity(s[1..], 10, 2)
    else if NamedEntity(s, "amp", '&') != NoEntity then NamedEntity(s, "amp", '&')
    else if NamedEntity(s, "lt", '<') != NoEntity then NamedEntity(s, "lt", '<')
    else if NamedEntity(s, "gt", '>') != NoEntity then NamedEntity(s, "gt", '>')
    else if NamedEntity(s, "quot", '"') != NoEntity then NamedEntity(s, "quot", '"')
    else NamedEntity(s, "apos", '\'')
  }

  lemma EntityFits(s: string)
    ensures EntityAt(s).Stands? ==> 2 <= EntityAt(s).length <= |s| + 1
  {}

  function Decode(s: string): Result<string, ParseError>
    decreases |s|
  {
    if s == "" then Ok("")
    else if s[0] != '&' then Prepend(s[0], Decode(s[1..]))
    else
      var entity := EntityAt(s[1..]);
      EntityFits(s[1..]);
      match entity
      case NoEntity => Prepend('&', Decode(s[1..]))
      case Invalid => Err(InvalidEntity)
      case Stands(length, c) => Prepend(c, Decode(s[length..]))
  }

  function Prepend(c: char, r: Result<string, ParseError>): Result<string, ParseError> {
    if r.Ok? then Ok([c] + r.value) else r
  }

  // ------------------------------------------------------------ start tags

  function LimitOf(name: string): nat {
    if name == "text" || name == "content-desc" then MAX_TEXT else MAX_ATTRIBUTE
  }

  predicate Oversized(name: string, value: string) {
    Utf16Length(value) > LimitOf(name) || Utf8Length(value) > LimitOf(name) * 4
  }

  /** Assigning `__proto__` on a JavaScript object stores nothing. */
  function Store(attributes: Attributes, name: string, value: string): Attributes {
    if name == "__proto__" then attributes else attributes[name := value]
  }

  function QuoteIndex(s: string, quote: char): (n: nat)
    ensures n <= |s|
  {
    if s == "" || s[0] == quote then 0 else 1 + QuoteIndex(s[1..], quote)
  }

  /** One attribute at the head of `s`: its name, its raw value, and what follows. */
  datatype Scanned = Scanned(name: string, raw: string, rest: string)

  /** The name, and the text behind the equals sign. */
  function ScanName(s: string, known: Attributes): (r: Result<(string, string), ParseError>)
    ensures r.Ok? ==> |r.value.1| < |s|
  {
    var name := s[..NameRun(s)];
    var s1 := s[NameRun(s)..];
    if name == "" || name in known then Err(InvalidAttribute)
    else
      var s2 := s1[SpaceRun(s1)..];
      if s2 == "" || s2[0] != '=' then Err(InvalidAttribute) else Ok((name, s2[1..]))
  }

  /** The quoted text, and what follows it. */
  function ScanValue(s: string): (r: Result<(string, string), ParseError>)
    ensures r.Ok? ==> |r.value.1| < |s|
  {
    var s1 := s[SpaceRun(s)..];
    if s1 == "" || (s1[0] != '"' && s1[0] != '\'') then Err(Unquoted)
    else
      var n := QuoteIndex(s1[1..], s1[0]);
      if n == |s1[1..]| then Err(UnterminatedAttribute) else Ok((s1[1..][..n], s1[1..][n + 1..]))
  }

  function ScanAttribute(s: string, known: Attributes): (r: Result<Scanned, ParseError>)
    ensures r.Ok? ==> |r.value.rest| < |s|
  {
    var name := ScanName(s, known);
    if name.Err? then Err(name.error)
    else
      var value := ScanValue(name.value.1);
      if value.Err? then Err(value.error) else Ok(Scanned(name.value.0, value.value.0, value.value.1))
  }

  function ParseAttributes(s: string, known: Attributes): Result<Attributes, ParseError>
    decreases |s|
  {
    var s1 := s[SpaceRun(s)..];
    if s1 == "" then Ok(known)
    else
      var scanned := ScanAttribute(s1, known);
      if scanned.Err? then Err(scanned.error)
      else
        var decoded := Decode(scanned.value.raw);
        if decoded.Err? then Err(decoded.error)
        else if Oversized(scanned.value.name, decoded.value) then Err(OversizedAttribute)
        else ParseAttributes(scanned.value.rest, Store(known, scanned.value.name, decoded.value))
  }

  datatype Tag = Tag(name: string, attributes: Attributes, selfClosing: bool)

  function ParseStartTag(raw: string): Result<Tag, ParseError> {
    var trimmed := Trim(raw);
    var selfClosing := trimmed != "" && trimmed[|trimmed| - 1] == '/';
    var value := if selfClosing then TrimEnd(trimmed[..|trimmed| - 1]) else trimmed;
    var name := value[..NameRun(value)];
    if name == "" then Err(InvalidTag)
    else
      var attributes := ParseAttributes(value[NameRun(value)..], map[]);
      if attributes.Err? then Err(attributes.error) else Ok(Tag(name, attributes.value, selfClosing))
  }

  /** The position of the `>` that ends a tag, outside quotes. */
  function TagEnd(s: string, quote: Option<char>): (r: Option<nat>)
    ensures r.Some? ==> r.value < |s| && s[r.value] == '>'
    decreases |s|
  {
    if s == "" then None
    else
      var next := if quote.Some? then (if s[0] == quote.value then None else quote)
                  else if s[0] == '"' || s[0] == '\'' then Some(s[0]) else None;
      if quote.None? && s[0] == '>' then Some(0)
      else
        var later := TagEnd(s[1..], next);
        if later.None? then None else Some(later.value + 1)
  }

  // ------------------------------------------------------------- documents

  datatype State = State(nodes: seq<Node>, stack: seq<Frame>, rotation: string, seen: bool)

  /** The innermost open node. */
  function ParentOf(stack: seq<Frame>): Option<nat> {
    if stack == [] then None
    else if stack[|stack| - 1].node.Some? then stack[|stack| - 1].node
    else ParentOf(stack[..|stack| - 1])
  }

  function CloseTag(st: State, raw: string): Result<State, ParseError>
    requires raw != ""
  {
    var name := Trim(raw[1..]);
    if name == "" || !(forall c :: c in name ==> IsNameChar(c)) then Err(InvalidClosingTag)
    else if st.stack == [] || st.stack[|st.stack| - 1].name != name then Err(MismatchedTags)
    else Ok(st.(stack := st.stack[..|st.stack| - 1]))
  }

  function Push(st: State, tag: Tag, node: Option<nat>): State {
    if tag.selfClosing then st else st.(stack := st.stack + [Frame(tag.name, node)])
  }

  function RotationText(attributes: Attributes): string {
    if "rotation" in attributes && attributes["rotation"] != "" then attributes["rotation"] else "0"
  }

  function OpenTag(st: State, raw: string): Result<State, ParseError> {
    var parsed := ParseStartTag(raw);
    if parsed.Err? then Err(parsed.error)
    else
      var tag := parsed.value;
      if tag.name != "hierarchy" && tag.name != "node" then Err(UnsupportedElement)
      else if tag.name == "hierarchy" then
        if st.seen || st.stack != [] then Err(MultipleRoots)
        else Ok(Push(st.(seen := true, rotation := RotationText(tag.attributes)), tag, None))
      else if !st.seen || st.stack == [] then Err(OutsideRoot)
      else if |st.nodes| >= MAX_NODES || |st.stack| > MAX_DEPTH then Err(StructuralLimit)
      else
        var node := Node(tag.attributes, ParentOf(st.stack), |st.stack|);
        Ok(Push(st.(nodes := st.nodes + [node]), tag, Some(|st.nodes|)))
  }

  /** Everything from the text that is still to be read. */
  function ParseRest(s: string, st: State): Result<State, ParseError>
    decreases |s|
  {
    var start := IndexOf(s, "<");
    if start.None? then (if Trim(s) != "" then Err(UnexpectedText) else Ok(st))
    else if Trim(s[..start.value]) != "" then Err(UnexpectedText)
    else
      var t := s[start.value..];
      if StartsWith(t, "<!--") then
        var end := IndexOf(t[4..], "-->");
        if end.None? then Err(UnterminatedComment) else ParseRest(t[4 + end.value + 3..], st)
      else if StartsWith(t, "<?") then
        var end := IndexOf(t[2..], "?>");
        if end.None? then Err(InvalidDeclaration) else ParseRest(t[2 + end.value + 2..], st)
      else if StartsWith(t, "<!") then Err(DeclarationNotAllowed)
      else
        var end := TagEnd(t[1..], None);
        if end.None? then Err(UnterminatedTag)
        else
          var raw := Trim(t[1..1 + end.value]);
          var next := if raw != "" && raw[0] == '/' then CloseTag(st, raw) else OpenTag(st, raw);
          if next.Err? then next else ParseRest(t[1 + end.value + 1..], next.value)
  }

  const OPENING := "<hierarchy"
  const CLOSING := "</hierarchy>"

  /** The document inside the tool's output: from the first opening to the last closing tag. */
  function Extract(output: string): Result<string, ParseError> {
    if Utf8Length(output) > MAX_BYTES then Err(TooLarge)
    else
      var start, end := IndexOf(output, OPENING), LastIndexOf(output, CLOSING);
      if start.None? || end.None? || end.value < start.value then Err(NotReturned)
      else Ok(output[start.value..end.value + |CLOSING|])
  }

  function Parse(output: string): Result<Hierarchy, ParseError> {
    var xml := Extract(output);
    if xml.Err? then Err(xml.error)
    else
      var parsed := ParseRest(xml.value, State([], [], "0", false));
      if parsed.Err? then Err(parsed.error)
      else if !parsed.value.seen || parsed.value.stack != [] then Err(Incomplete)
      else Ok(Hierarchy(parsed.value.nodes, parsed.value.rotation))
  }

  // --------------------------------------------------- reading step by step

  lemma {:induction false} NothingLeft(st: State)
    ensures ParseRest("", st) == Ok(st) && Trim("") == ""
  {
    assert IndexOf("", "<") == None;
  }

  lemma {:induction false} StartsAtOnce(t: string)
    requires t != "" && t[0] == '<'
    ensures IndexOf(t, "<") == Some(0) && t[..0] == "" && t[0..] == t
  {
    assert t[..1] == "<";
  }

  /** White space in front of a tag is skipped. */
  lemma {:induction false} SkipLeading(s: string, st: State)
    requires IndexOf(s, "<").Some? && Trim(s[..IndexOf(s, "<").value]) == ""
    ensures ParseRest(s, st) == ParseRest(s[IndexOf(s, "<").value..], st)
  {
    hide IndexOf, Trim, TagEnd, CloseTag, OpenTag;
    var t := s[IndexOf(s, "<").value..];
    StartsAtOnce(t);
    NothingLeft(st);
  }

  lemma NoMoreTags(s: string, st: State)
    requires IndexOf(s, "<").None?
    ensures ParseRest(s, st) == if Trim(s) != "" then Err(UnexpectedText) else Ok(st)
  {}

  lemma TextBeforeTag(s: string, st: State)
    requires IndexOf(s, "<").Some? && Trim(s[..IndexOf(s, "<").value]) != ""
    ensures ParseRest(s, st) == Err(UnexpectedText)
  {}

  /** The four things that may start with `<`. */
  lemma {:induction false} ConstructSteps(t: string, st: State)
    requires t != "" && t[0] == '<'
    ensures StartsWith(t, "<!--") ==>
              var end := IndexOf(t[4..], "-->");
              ParseRest(t, st) == if end.None? then Err(UnterminatedComment) else ParseRest(t[4 + end.value + 3..], st)
    ensures !StartsWith(t, "<!--") && StartsWith(t, "<?") ==>
              var end := IndexOf(t[2..], "?>");
              ParseRest(t, st) == if end.None? then Err(InvalidDeclaration) else ParseRest(t[2 + end.value + 2..], st)
    ensures !StartsWith(t, "<!--") && !StartsWith(t, "<?") && StartsWith(t, "<!")
            ==> ParseRest(t, st) == Err(DeclarationNotAllowed)
    ensures !StartsWith(t, "<?") && !StartsWith(t, "<!") ==> ParseRest(t, st) == ParseTag(t, st)
  {
    hide IndexOf, Trim, TagEnd, CloseTag, OpenTag;
    StartsAtOnce(t);
    NothingLeft(st);
    assert StartsWith(t, "<!--")
           ==> StartsWith(t, "<!") by { if |t| >= 4 { assert t[..4][..2] == t[..2]; assert "<!--"[..2] == "<!"; } }
  }

  /** The case of a tag. */
  function ParseTag(t: string, st: State): Result<State, ParseError>
    requires t != ""
  {
    var end := TagEnd(t[1..], None);
    if end.None? then Err(UnterminatedTag)
    else
      var raw := Trim(t[1..1 + end.value]);
      var next := if raw != "" && raw[0] == '/' then CloseTag(st, raw) else OpenTag(st, raw);
      if next.Err? then next else ParseRest(t[1 + end.value + 1..], next.value)
  }

  /** One turn of the attribute loop. */
  lemma {:induction false} AttributeStep(s: string, known: Attributes)
    ensures var s1 := s[SpaceRun(s)..];
            && (s1 == "" ==> ParseAttributes(s, known) == Ok(known))
            && (s1 != "" && ScanName(s1, known).Err? ==> ParseAttributes(s, known) == Err(ScanName(s1, known).error))
            && (s1 != "" && ScanName(s1, known).Ok? ==>
                  var value := ScanValue(ScanName(s1, known).value.1);
                  ParseAttributes(s, known) == if value.Err? then Err(value.error)
                                               else ParseValue(ScanName(s1, known).value.0, value.value.0,
                                                               value.value.1, known))
  {
    hide SpaceRun, ScanName, ScanValue, Decode, Oversized, Store;
  }

  /** The rest of the turn: the value is decoded, measured and stored. */
  function ParseValue(name: string, raw: string, rest: string, known: Attributes): Result<Attributes, ParseError> {
    var decoded := Decode(raw);
    if decoded.Err? then Err(decoded.error)
    else if Oversized(name, decoded.value) then Err(OversizedAttribute)
    else ParseAttributes(rest, Store(known, name, decoded.value))
  }
}
