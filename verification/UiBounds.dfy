/**
 * Bounds as Android prints them, when a node covers a point, and what the
 * resulting target says (mobile/src/ui-target.ts:271-300, 448-461 and 600-678).
 */
module UiBounds {
  import opened Common
  import opened UiHierarchy
  import opened UiScanner
  import opened UiTarget

  // ------------------------------------------------------------- printing

  function DigitOf(d: nat): char
    requires d < 10
  {
    ('0' as int + d) as char
  }

  function Decimal(n: nat): (s: string)
    ensures s != ""
  {
    if n < 10 then [DigitOf(n)] else Decimal(n / 10) + [DigitOf(n % 10)]
  }

  function Printed(n: int): string {
    if n < 0 then "-" + Decimal(-n) else Decimal(n)
  }

  function PrintedBounds(b: Bounds): string {
    "[" + Printed(b.left) + "," + Printed(b.top) + "][" + Printed(b.right) + "," + Printed(b.bottom) + "]"
  }

  predicate AllDigits(s: string) {
    forall c :: c in s ==> '0' <= c <= '9'
  }

  lemma DigitIsRead(d: nat)
    requires d < 10
    ensures Digit(DigitOf(d), 10) == Some(d)
  {}

  lemma {:induction false} DecimalIsRead(n: nat)
    ensures AllDigits(Decimal(n)) && NumberOf(Decimal(n), 10) == n
    decreases n
  {
    if n < 10 {
      DigitIsRead(n);
      assert [DigitOf(n)][..0] == "";
    } else {
      DecimalIsRead(n / 10);
      DigitIsRead(n % 10);
      assert Decimal(n)[..|Decimal(n)| - 1] == Decimal(n / 10);
    }
  }

  lemma {:induction false} DigitRunEnds(digits: string, rest: string)
    requires AllDigits(digits) && (rest == "" || !('0' <= rest[0] <= '9'))
    ensures DigitRun(digits + rest, 10) == |digits|
    decreases |digits|
  {
    if digits == "" {
      assert digits + rest == rest;
    } else {
      assert digits[0] in digits && forall c :: c in digits[1..] ==> c in digits;
      assert (digits + rest)[1..] == digits[1..] + rest;
      DigitRunEnds(digits[1..], rest);
    }
  }

  lemma {:induction false} PrintedIsRead(n: int, rest: string)
    requires rest == "" || !('0' <= rest[0] <= '9')
    ensures ScanInt(Printed(n) + rest) == Some((n, rest))
  {
    hide Decimal, NumberOf, DigitRun;
    var digits := Decimal(if n < 0 then -n else n);
    DecimalIsRead(if n < 0 then -n else n);
    DigitRunEnds(digits, rest);
    var s := Printed(n) + rest;
    if n < 0 {
      assert s[0] == '-' && s[1..] == digits + rest;
    } else {
      assert s == digits + rest && s[0] in digits;
    }
    assert (digits + rest)[..|digits|] == digits && (digits + rest)[|digits|..] == rest;
  }

  lemma {:induction false} PairIsRead(a: int, b: int, rest: string)
    ensures ScanPair("[" + Printed(a) + "," + Printed(b) + "]" + rest) == Some((a, b, rest))
  {
    hide Printed, ScanInt;
    var tail := "]" + rest;
    var s := "[" + Printed(a) + "," + Printed(b) + "]" + rest;
    assert s[1..] == Printed(a) + ("," + Printed(b) + tail);
    PrintedIsRead(a, "," + Printed(b) + tail);
    assert ("," + Printed(b) + tail)[1..] == Printed(b) + tail;
    PrintedIsRead(b, tail);
    assert tail[1..] == rest;
  }

  /** A decimal character reference stands for that character, and is an error for what is no character. */
  lemma {:induction false} ReferenceIsRead(n: nat, rest: string)
    ensures var text := "&#" + Decimal(n) + ";" + rest;
      if n < 0xD800 || 0xE000 <= n <= 0x10FFFF then Decode(text) == Prepend(n as char, Decode(rest))
      else Decode(text) == Err(InvalidEntity)
  {
    hide Decimal, NumberOf, DigitRun, Decode, NamedEntity;
    var digits, text := Decimal(n), "&#" + Decimal(n) + ";" + rest;
    DecimalIsRead(n);
    DigitRunEnds(digits, ";" + rest);
    var behind := "#" + digits + ";" + rest;
    assert text[1..] == behind && behind[1..] == digits + (";" + rest);
    assert behind[1] == digits[0] && digits[0] in digits;
    assert (digits + (";" + rest))[..|digits|] == digits && (digits + (";" + rest))[|digits|] == ';';
    DecodeOne(text);
    assert text[|digits| + 3..] == rest;
  }

  lemma DecodeOne(s: string)
    requires s != "" && s[0] == '&'
    ensures EntityAt(s[1..]).Invalid? ==> Decode(s) == Err(InvalidEntity)
    ensures EntityAt(s[1..]).Stands? ==>
              && 2 <= EntityAt(s[1..]).length <= |s|
              && Decode(s) == Prepend(EntityAt(s[1..]).c, Decode(s[EntityAt(s[1..]).length..]))
  {
    EntityFits(s[1..]);
  }

  /** A predefined name in any other spelling than lower case is an error. */
  lemma {:induction false} OtherSpellingsFail(name: string, spelled: string, rest: string)
    requires name in ["amp", "lt", "gt", "quot", "apos"]
    requires LowerAll(spelled) == name && spelled != name
    ensures Decode("&" + spelled + ";" + rest) == Err(InvalidEntity)
  {
    hide Decode;
    var behind := spelled + ";" + rest;
    assert ("&" + spelled + ";" + rest)[1..] == behind;
    assert |spelled| == |name| && behind[..|name|] == spelled && behind[|name|] == ';';
    assert Lower(spelled[0]) == name[0];
    DecodeOne("&" + spelled + ";" + rest);
    OtherNamesDiffer(name, spelled, rest);
  }

  lemma {:induction false} OtherNamesDiffer(name: string, spelled: string, rest: string)
    requires name in ["amp", "lt", "gt", "quot", "apos"] && LowerAll(spelled) == name && spelled != name
    ensures EntityAt(spelled + ";" + rest) == Invalid
  {
    var s := spelled + ";" + rest;
    assert forall k :: 0 <= k < |spelled| ==> Lower(s[k]) == name[k];
    forall other | other in ["amp", "lt", "gt", "quot", "apos"] && other != name
      ensures forall c :: NamedEntity(s, other, c) == NoEntity
    {
      if |s| >= |other| + 1 && LowerAll(s[..|other|]) == other {
        assert Lower(s[0]) == other[0] && Lower(s[1]) == other[1];
      }
    }
    assert s[..|name|] == spelled;
  }

  /** Printed bounds are read back: left and top first, then right and bottom. */
  lemma {:induction false} PrintedBoundsAreRead(b: Bounds)
    requires b.left < b.right && b.top < b.bottom
    requires Safe(b.left) && Safe(b.top) && Safe(b.right) && Safe(b.bottom)
    ensures ParseBounds(PrintedBounds(b)) == Some(b)
  {
    hide Printed, ScanPair, ScanInt;
    var second := "[" + Printed(b.right) + "," + Printed(b.bottom) + "]";
    assert PrintedBounds(b) == "[" + Printed(b.left) + "," + Printed(b.top) + "]" + second;
    PairIsRead(b.left, b.top, second);
    assert second == "[" + Printed(b.right) + "," + Printed(b.bottom) + "]" + "";
    PairIsRead(b.right, b.bottom, "");
  }

  /** A node with printed bounds covers the points inside, without the right and bottom edge, unless it is hidden. */
  lemma {:induction false} CoversIff(n: Node, b: Bounds, x: int, y: int)
    requires b.left < b.right && b.top < b.bottom
    requires Safe(b.left) && Safe(b.top) && Safe(b.right) && Safe(b.bottom)
    requires "bounds" in n.attributes && n.attributes["bounds"] == PrintedBounds(b)
    ensures Covers(n, x, y)
       <==> b.left <= x < b.right && b.top <= y < b.bottom
            && ("visible-to-user" in n.attributes ==> n.attributes["visible-to-user"] != "false")
            && ("displayed" in n.attributes ==> n.attributes["displayed"] != "false")
  {
    hide ParseBounds, PrintedBounds;
    PrintedBoundsAreRead(b);
  }

  // --------------------------------------------------- identifiers, texts

  predicate IdChars(s: string) {
    s != "" && forall c :: c in s ==> IsIdChar(c)
  }

  /** A name, or a package and a name. */
  ghost predicate NameOrPath(s: string) {
    IdChars(s) || exists a, b :: IdChars(a) && IdChars(b) && s == a + "/" + b
  }

  /** The first slash. */
  lemma {:induction false} FirstSlash(s: string)
    ensures IndexOf(s, "/").None? ==> '/' !in s
    ensures IndexOf(s, "/").Some? ==> var i := IndexOf(s, "/").value; s[i] == '/' && '/' !in s[..i]
    decreases |s|
  {
    if s != "" && !StartsWith(s, "/") {
      assert s == [s[0]] + s[1..] && s[0] != '/';
      FirstSlash(s[1..]);
      var later := IndexOf(s[1..], "/");
      if later.Some? {
        assert s[..later.value + 1] == [s[0]] + s[1..][..later.value];
      }
    } else if s != "" {
      assert s[..1] == "/";
    }
  }

  lemma HasSlash(a: string, b: string)
    ensures '/' in a + "/" + b
  {
    assert (a + "/" + b)[|a|] == '/';
  }

  lemma {:induction false} IdentifierIff(s: string)
    ensures IsIdentifier(s) <==> NameOrPath(s)
  {
    hide IndexOf, StartsWith;
    FirstSlash(s);
    var slash := IndexOf(s, "/");
    if slash.Some? {
      var i := slash.value;
      assert s == s[..i] + "/" + s[i + 1..];
      assert '/' in s && !IdChars(s);
      assert IsIdentifier(s) <==> IdChars(s[..i]) && IdChars(s[i + 1..]);
      if a, b :| IdChars(a) && IdChars(b) && s == a + "/" + b {
        assert s[|a|] == '/' && forall k :: 0 <= k < |a| ==> s[k] == a[k] && a[k] in a;
        assert s[i] == '/' && i >= |a|;
        assert i == |a|;
        assert s[..i] == a && s[i + 1..] == b;
      }
    } else if a, b :| IdChars(a) && IdChars(b) && s == a + "/" + b {
      HasSlash(a, b);
    }
  }

  lemma {:induction false} TrimmedIff(s: string)
    ensures Trim(s) != "" <==> exists c :: c in s && !IsSpace(c)
  {
    StartTrimmed(s);
    EndTrimmed(TrimStart(s));
  }

  lemma {:induction false} StartTrimmed(s: string)
    ensures forall c :: !IsSpace(c) ==> (c in TrimStart(s) <==> c in s)
    ensures TrimStart(s) != "" ==> !IsSpace(TrimStart(s)[0])
    decreases |s|
  {
    if s != "" && IsSpace(s[0]) {
      StartTrimmed(s[1..]);
      assert s == [s[0]] + s[1..];
    }
  }

  lemma {:induction false} EndTrimmed(s: string)
    ensures forall c :: !IsSpace(c) ==> (c in TrimEnd(s) <==> c in s)
    ensures TrimEnd(s) != "" ==> !IsSpace(TrimEnd(s)[|TrimEnd(s)| - 1])
    decreases |s|
  {
    if s != "" && IsSpace(s[|s| - 1]) {
      EndTrimmed(s[..|s| - 1]);
      assert s == s[..|s| - 1] + [s[|s| - 1]];
    }
  }

  /** A node is identified by its trimmed resource-id of at most 200 units: a name, or a package and a name. */
  lemma {:induction false} SafeIdIff(n: Node)
    ensures var id := Trim(Attribute(n, "resource-id"));
      SafeId(n) == if NameOrPath(id) && Utf16Length(id) <= 200 then Some(id) else None
  {
    hide IsIdentifier, Utf16Length, Trim;
    IdentifierIff(Trim(Attribute(n, "resource-id")));
  }

  /** A node has a text when its text or its description holds more than white space. */
  lemma {:induction false} HasTextIff(n: Node)
    ensures HasText(n)
       <==> (exists c :: c in Attribute(n, "text") && !IsSpace(c))
            || (exists c :: c in Attribute(n, "content-desc") && !IsSpace(c))
  {
    hide Trim;
    TrimmedIff(Attribute(n, "text"));
    TrimmedIff(Attribute(n, "content-desc"));
  }

  lemma {:induction false} BytesPerUnit(s: string)
    ensures Utf8Length(s) <= 4 * |s| && |s| <= Utf16Length(s)
    decreases |s|
  {
    if s != "" {
      BytesPerUnit(s[1..]);
    }
  }

  /** The limit on UTF-8 bytes is implied by the one on UTF-16 units: 4096 for texts, 8192 for other values. */
  lemma OversizedIff(name: string, value: string)
    ensures Oversized(name, value)
       <==> Utf16Length(value) > if name in ["text", "content-desc"] then 4_096 else 8_192
  {
    BytesPerUnit(value);
  }

  // ------------------------------------------------------------ the target

  function AreaOf(b: Bounds): int {
    (b.right - b.left) * (b.bottom - b.top)
  }

  /** Of the nodes that cover a point the deepest is found, of those the smallest, of those the last. */
  lemma {:induction false} DeepestSmallestLast(nodes: seq<Node>, x: int, y: int, found: nat, i: nat)
    requires Deepest(nodes, x, y, |nodes|) == Some(found) && i < |nodes| && i != found && Covers(nodes[i], x, y)
    ensures Covers(nodes[found], x, y)
    ensures var mine, other := AreaOf(BoundsOf(nodes[found]).value), AreaOf(BoundsOf(nodes[i]).value);
      || nodes[i].depth < nodes[found].depth
      || (nodes[i].depth == nodes[found].depth && (mine < other || (mine == other && i < found)))
  {
    hide BoundsOf, Contains;
    DeepestIsFirst(nodes, x, y, |nodes|);
  }

  /** Clamping to the display is intersecting with it. */
  lemma ClampIsIntersection(b: Bounds, display: (nat, nat), u: int, v: int)
    requires b.left < b.right && b.top < b.bottom
    ensures Contains(ClampBounds(b, display), u, v)
       <==> Contains(b, u, v) && 0 <= u < display.0 && 0 <= v < display.1
  {}

  /** A target describes the chosen node: its identifier, whether it is clickable, and its visible part. */
  lemma {:induction false} TargetDescribes(nodes: seq<Node>, r: Request, display: (nat, nat), u: int, v: int)
    requires ParentsFirst(nodes) && r.width >= 1 && r.height >= 1 && display.0 >= 1 && display.1 >= 1
    requires Resolve(nodes, r, display).Some?
    ensures var t, (x, y) := Resolve(nodes, r, display).value, PointOf(r, display);
      && Select(nodes, x, y).Some?
      && var s := Select(nodes, x, y).value;
      && s.node < |nodes| && Positions(nodes, s.path)
      && t.node == Chosen(nodes, s, x, y) && t.node < |nodes| && BoundsOf(nodes[t.node]).Some?
      && t.resourceId == SafeId(nodes[t.node])
      && (t.clickable <==> "clickable" in nodes[t.node].attributes && nodes[t.node].attributes["clickable"] == "true")
      && (t.resourceId.None? ==> t.confidence == if HasText(nodes[t.node]) then Composite else Heuristic)
      && (Contains(t.bounds, u, v) <==>
            Contains(BoundsOf(nodes[t.node]).value, u, v) && 0 <= u < display.0 && 0 <= v < display.1)
  {
    hide Select, Chosen, PointOf, SafeId, HasText, ParseBounds, SameOrientation, ClampBounds;
    var (x, y) := PointOf(r, display);
    SelectionIsRight(nodes, x, y);
    var chosen := Chosen(nodes, Select(nodes, x, y).value, x, y);
    ClampIsIntersection(BoundsOf(nodes[chosen]).value, display, u, v);
  }
}
