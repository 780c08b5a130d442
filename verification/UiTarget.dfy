/**
 * The element under a point of the screen (mobile/src/ui-target.ts:280-300,
 * 421-446 and 508-638), over the tree that the scanner accepted.
 */
module UiTarget {
  import opened Common
  import opened UiHierarchy
  import opened UiScanner

  datatype Bounds = Bounds(left: int, top: int, right: int, bottom: int)

  const MAX_SAFE := 0x1F_FFFF_FFFF_FFFF

  // ---------------------------------------------------------- attributes

  /** An optional minus sign and digits, and the rest of the text. */
  function ScanInt(s: string): (r: Option<(int, string)>)
    ensures r.Some? ==> |r.value.1| < |s|
  {
    var negative := s != "" && s[0] == '-';
    var digits := if negative then s[1..] else s;
    var n := DigitRun(digits, 10);
    if n == 0 then None
    else
      var value: int := NumberOf(digits[..n], 10);
      Some((if negative then -value else value, digits[n..]))
  }

  /** `[a,b]` and the rest. */
  function ScanPair(s: string): Option<(int, int, string)> {
    if s == "" || s[0] != '[' then None
    else
      var a := ScanInt(s[1..]);
      if a.None? || a.value.1 == "" || a.value.1[0] != ',' then None
      else
        var b := ScanInt(a.value.1[1..]);
        if b.None? || b.value.1 == "" || b.value.1[0] != ']' then None
        else Some((a.value.0, b.value.0, b.value.1[1..]))
  }

  predicate Safe(n: int) {
    -MAX_SAFE <= n <= MAX_SAFE
  }

  /** A rectangle of positive area, or nothing. */
  function ParseBounds(s: string): (r: Option<Bounds>)
    ensures r.Some? ==> r.value.left < r.value.right && r.value.top < r.value.bottom
  {
    var first := ScanPair(s);
    if first.None? then None
    else
      var second := ScanPair(first.value.2);
      if second.None? || second.value.2 != "" then None
      else
        var (left, top, _) := first.value;
        var (right, bottom, _) := second.value;
        if !Safe(left) || !Safe(top) || !Safe(right) || !Safe(bottom) || right <= left || bottom <= top then None
        else Some(Bounds(left, top, right, bottom))
  }

  function Attribute(n: Node, name: string): string {
    if name in n.attributes then n.attributes[name] else ""
  }

  function BoundsOf(n: Node): Option<Bounds> {
    ParseBounds(Attribute(n, "bounds"))
  }

  predicate Visible(n: Node) {
    BoundsOf(n).Some? && Attribute(n, "visible-to-user") != "false" && Attribute(n, "displayed") != "false"
  }

  predicate Contains(b: Bounds, x: int, y: int) {
    b.left <= x < b.right && b.top <= y < b.bottom
  }

  predicate Covers(n: Node, x: int, y: int) {
    Visible(n) && Contains(BoundsOf(n).value, x, y)
  }

  predicate Clickable(n: Node) {
    Attribute(n, "clickable") == "true"
  }

  predicate IsIdChar(c: char) {
    || 'A' <= c <= 'Z' || 'a' <= c <= 'z' || '0' <= c <= '9'
    || c == '_' || c == '.' || c == '$' || c == ':' || c == '-'
  }

  /** One or two runs of identifier characters, the second behind a slash. */
  predicate IsIdentifier(s: string) {
    var slash := IndexOf(s, "/");
    if slash.None? then s != "" && forall c :: c in s ==> IsIdChar(c)
    else
      && slash.value > 0 && slash.value + 1 < |s|
      && (forall c :: c in s[..slash.value] ==> IsIdChar(c))
      && (forall c :: c in s[slash.value + 1..] ==> IsIdChar(c))
  }

  function SafeId(n: Node): Option<string> {
    var value := Trim(Attribute(n, "resource-id"));
    if value != "" && Utf16Length(value) <= 200 && IsIdentifier(value) then Some(value) else None
  }

  predicate HasText(n: Node) {
    Trim(Attribute(n, "text")) != "" || Trim(Attribute(n, "content-desc")) != ""
  }

  // ----------------------------------------------------- the deepest node

  function Area(n: Node): int {
    match BoundsOf(n)
    case None => 0
    case Some(b) => (b.right - b.left) * (b.bottom - b.top)
  }

  /** Deeper first, then smaller, then later in the document. */
  predicate Preferred(nodes: seq<Node>, i: nat, j: nat)
    requires i < |nodes| && j < |nodes|
  {
    || nodes[i].depth > nodes[j].depth
    || (nodes[i].depth == nodes[j].depth
        && (Area(nodes[i]) < Area(nodes[j]) || (Area(nodes[i]) == Area(nodes[j]) && i > j)))
  }

  function Deepest(nodes: seq<Node>, x: int, y: int, n: nat): (r: Option<nat>)
    requires n <= |nodes|
    ensures r.Some? ==> r.value < n
  {
    if n == 0 then None
    else
      var before := Deepest(nodes, x, y, n - 1);
      if !Covers(nodes[n - 1], x, y) then before
      else if before.None? || Preferred(nodes, n - 1, before.value) then Some(n - 1)
      else before
  }

  /** Some node is found when one covers the point, and no covering node is preferred to it. */
  lemma {:induction false} DeepestIsFirst(nodes: seq<Node>, x: int, y: int, n: nat)
    requires n <= |nodes|
    ensures var found := Deepest(nodes, x, y, n);
            && (found.None? <==> forall i :: 0 <= i < n ==> !Covers(nodes[i], x, y))
            && (found.Some? ==> Covers(nodes[found.value], x, y))
            && (found.Some? ==> forall i :: 0 <= i < n && i != found.value && Covers(nodes[i], x, y) ==>
                Preferred(nodes, found.value, i))
    decreases n
  {
    hide Visible, Contains, Area;
    if n != 0 {
      DeepestIsFirst(nodes, x, y, n - 1);
    }
  }

  // ------------------------------------------------------------ selection

  /** The node to act on, and the path that was walked from the deepest node up to it. */
  datatype Selection = Selection(node: nat, path: seq<nat>)

  ghost predicate ParentsFirst(nodes: seq<Node>) {
    forall i :: 0 <= i < |nodes| && nodes[i].parent.Some? ==> nodes[i].parent.value < i
  }

  /** From `from` upwards to the first clickable covering ancestor. */
  function Climb(nodes: seq<Node>, x: int, y: int, from: nat, path: seq<nat>): (r: Option<Selection>)
    requires ParentsFirst(nodes) && from < |nodes|
    ensures r.Some? ==> r.value.node < |nodes| && path <= r.value.path
    decreases from
  {
    if nodes[from].parent.None? then None
    else
      var up := nodes[from].parent.value;
      if Clickable(nodes[up]) && Covers(nodes[up], x, y) then Some(Selection(up, path + [up]))
      else Climb(nodes, x, y, up, path + [up])
  }

  function Select(nodes: seq<Node>, x: int, y: int): Option<Selection>
    requires ParentsFirst(nodes)
  {
    var deepest := Deepest(nodes, x, y, |nodes|);
    if deepest.None? then None
    else if Clickable(nodes[deepest.value]) then Some(Selection(deepest.value, [deepest.value]))
    else
      var climbed := Climb(nodes, x, y, deepest.value, [deepest.value]);
      if climbed.Some? then climbed else Some(Selection(deepest.value, [deepest.value]))
  }

  /** The parent, its parent, and so on. */
  function Ancestors(nodes: seq<Node>, from: nat): (r: seq<nat>)
    requires ParentsFirst(nodes) && from < |nodes|
    ensures forall a :: a in r ==> a < |nodes|
    decreases from
  {
    if nodes[from].parent.None? then []
    else [nodes[from].parent.value] + Ancestors(nodes, nodes[from].parent.value)
  }

  /** A node that would take the tap. */
  predicate Acts(nodes: seq<Node>, x: int, y: int, i: nat) {
    i < |nodes| && Clickable(nodes[i]) && Covers(nodes[i], x, y)
  }

  predicate NoneActs(nodes: seq<Node>, x: int, y: int, list: seq<nat>) {
    forall k :: 0 <= k < |list| ==> !Acts(nodes, x, y, list[k])
  }

  /** The selection stops at the first node of the list that acts, having walked the list so far. */
  predicate StopsAtFirst(nodes: seq<Node>, x: int, y: int, s: Selection, path: seq<nat>, list: seq<nat>, k: nat) {
    && k < |list|
    && Acts(nodes, x, y, list[k]) && NoneActs(nodes, x, y, list[..k])
    && s == Selection(list[k], path + list[..k + 1])
  }

  lemma ClimbOnce(nodes: seq<Node>, x: int, y: int, from: nat, path: seq<nat>)
    requires ParentsFirst(nodes) && from < |nodes|
    ensures Climb(nodes, x, y, from, path)
         == if nodes[from].parent.None? then None
            else
              var up := nodes[from].parent.value;
              if Acts(nodes, x, y, up) then Some(Selection(up, path + [up])) else Climb(nodes, x, y, up, path + [up])
  {}

  lemma {:induction false} ClimbFindsNone(nodes: seq<Node>, x: int, y: int, from: nat, path: seq<nat>)
    requires ParentsFirst(nodes) && from < |nodes| && NoneActs(nodes, x, y, Ancestors(nodes, from))
    ensures Climb(nodes, x, y, from, path) == None
    decreases from
  {
    hide Acts, Climb;
    ClimbOnce(nodes, x, y, from, path);
    if nodes[from].parent.Some? {
      var up := nodes[from].parent.value;
      var rest := Ancestors(nodes, up);
      assert !Acts(nodes, x, y, ([up] + rest)[0]);
      assert forall k :: 0 <= k < |rest| ==> rest[k] == ([up] + rest)[k + 1];
      ClimbFindsNone(nodes, x, y, up, path + [up]);
    }
  }

  lemma {:induction false} ClimbStops(nodes: seq<Node>, x: int, y: int, from: nat, path: seq<nat>) returns (k: nat)
    requires ParentsFirst(nodes) && from < |nodes| && !NoneActs(nodes, x, y, Ancestors(nodes, from))
    ensures Climb(nodes, x, y, from, path).Some?
    ensures StopsAtFirst(nodes, x, y, Climb(nodes, x, y, from, path).value, path, Ancestors(nodes, from), k)
    decreases from
  {
    hide Acts, Climb;
    ClimbOnce(nodes, x, y, from, path);
    var up := nodes[from].parent.value;
    var rest := Ancestors(nodes, up);
    var all := [up] + rest;
    if Acts(nodes, x, y, up) {
      k := 0;
      assert all[..1] == [up];
    } else {
      var j :| 0 <= j < |all| && Acts(nodes, x, y, all[j]);
      assert rest[j - 1] == all[j];
      k := ClimbStops(nodes, x, y, up, path + [up]);
      assert all[k + 1] == rest[k] && all[..k + 2] == [up] + rest[..k + 1];
      assert path + [up] + rest[..k + 1] == path + all[..k + 2];
      assert all[..k + 1] == [up] + rest[..k];
      k := k + 1;
    }
  }

  /**
   * Which node is selected: the preferred covering node itself when it is clickable
   * or none of its ancestors takes the tap, else the nearest ancestor that does; the
   * path is what was walked.
   */
  lemma {:induction false} NearestActingAncestor(nodes: seq<Node>, x: int, y: int, deepest: nat) returns (k: nat)
    requires ParentsFirst(nodes) && Deepest(nodes, x, y, |nodes|) == Some(deepest)
    ensures Select(nodes, x, y).Some?
    ensures var s, up := Select(nodes, x, y).value, Ancestors(nodes, deepest);
      if Clickable(nodes[deepest]) || NoneActs(nodes, x, y, up) then s == Selection(deepest, [deepest])
      else StopsAtFirst(nodes, x, y, s, [deepest], up, k) && s.node != deepest
  {
    hide Clickable, Deepest, Climb, NoneActs, StopsAtFirst;
    k := 0;
    if NoneActs(nodes, x, y, Ancestors(nodes, deepest)) {
      ClimbFindsNone(nodes, x, y, deepest, [deepest]);
    } else if !Clickable(nodes[deepest]) {
      k := ClimbStops(nodes, x, y, deepest, [deepest]);
      AncestorsAreEarlier(nodes, deepest);
      StopNode(nodes, x, y, Select(nodes, x, y).value, [deepest], Ancestors(nodes, deepest), k);
    }
  }

  lemma StopNode(nodes: seq<Node>, x: int, y: int, s: Selection, path: seq<nat>, list: seq<nat>, k: nat)
    requires StopsAtFirst(nodes, x, y, s, path, list, k)
    ensures s.node in list
  {}

  lemma {:induction false} AncestorsAreEarlier(nodes: seq<Node>, from: nat)
    requires ParentsFirst(nodes) && from < |nodes|
    ensures forall a :: a in Ancestors(nodes, from) ==> a < from
    decreases from
  {
    if nodes[from].parent.Some? {
      AncestorsAreEarlier(nodes, nodes[from].parent.value);
    }
  }

  /** Each node of the path is the parent of the one before it. */
  ghost predicate GoesUp(nodes: seq<Node>, path: seq<nat>) {
    && (forall k :: 0 <= k < |path| ==> path[k] < |nodes|)
    && forall k :: 0 < k < |path| ==> nodes[path[k - 1]].parent == Some(path[k])
  }

  lemma {:induction false} ClimbGoesUp(nodes: seq<Node>, x: int, y: int, from: nat, path: seq<nat>)
    requires ParentsFirst(nodes) && from < |nodes| && path != [] && path[|path| - 1] == from && GoesUp(nodes, path)
    ensures var r := Climb(nodes, x, y, from, path);
            r.Some? ==> && GoesUp(nodes, r.value.path) && r.value.path[|r.value.path| - 1] == r.value.node
                        && Clickable(nodes[r.value.node]) && Covers(nodes[r.value.node], x, y)
    decreases from
  {
    hide Clickable, Covers;
    if nodes[from].parent.Some? {
      var up := nodes[from].parent.value;
      assert GoesUp(nodes, path + [up]);
      if !(Clickable(nodes[up]) && Covers(nodes[up], x, y)) {
        ClimbGoesUp(nodes, x, y, up, path + [up]);
      }
    }
  }

  /**
   * A selection exists exactly when a visible node covers the point. It covers the point itself, its path starts at
   * the preferred covering node and goes up the tree, and it is clickable unless it is that node.
   */
  lemma {:induction false} SelectionIsRight(nodes: seq<Node>, x: int, y: int)
    requires ParentsFirst(nodes)
    ensures Select(nodes, x, y).Some? <==> exists n :: n in nodes && Covers(n, x, y)
    ensures Select(nodes, x, y).Some? ==>
              var s := Select(nodes, x, y).value;
              && s.node < |nodes| && Covers(nodes[s.node], x, y)
              && s.path != [] && Deepest(nodes, x, y, |nodes|) == Some(s.path[0]) && s.node == s.path[|s.path| - 1]
              && GoesUp(nodes, s.path)
              && (s.node != s.path[0] ==> Clickable(nodes[s.node]))
  {
    hide Clickable, Covers, Preferred;
    DeepestIsFirst(nodes, x, y, |nodes|);
    var deepest := Deepest(nodes, x, y, |nodes|);
    if deepest.Some? {
      assert nodes[deepest.value] in nodes;
      ClimbGoesUp(nodes, x, y, deepest.value, [deepest.value]);
    }
  }

  /** The ancestor walk as a loop. */
  method SelectTargetNode(nodes: seq<Node>, x: int, y: int) returns (selection: Option<Selection>)
    requires ParentsFirst(nodes)
    ensures selection == Select(nodes, x, y)
  {
    hide Covers, Clickable;
    var deepest := Deepest(nodes, x, y, |nodes|);
    if deepest.None? { return None; }
    if Clickable(nodes[deepest.value]) { return Some(Selection(deepest.value, [deepest.value])); }
    var semanticPath: seq<nat> := [deepest.value];
    var below: nat := deepest.value;
    while nodes[below].parent.Some?
      invariant below < |nodes|
      invariant Climb(nodes, x, y, deepest.value, [deepest.value]) == Climb(nodes, x, y, below, semanticPath)
      decreases below
    {
      var ancestor := nodes[below].parent.value;
      semanticPath := semanticPath + [ancestor];
      if Clickable(nodes[ancestor]) && Covers(nodes[ancestor], x, y) { return Some(Selection(ancestor, semanticPath)); }
      below := ancestor;
    }
    return Some(Selection(deepest.value, [deepest.value]));
  }

  // -------------------------------------------------------------- the result

  function Sign(n: int): int {
    if n < 0 then -1 else if n == 0 then 0 else 1
  }

  /** A coordinate of the recorded screen on the display, moved inside it. */
  function MapPoint(p: real, screen: nat, display: nat): int
    requires screen >= 1 && display >= 1
  {
    var scaled := (p / (screen as real) * (display as real)).Floor;
    var low := if scaled < 0 then 0 else scaled;
    if low > display - 1 then display - 1 else low
  }

  lemma Crosswise(p: real, s: real, d: real)
    requires s > 0.0
    ensures (p / s * d) * s == p * d
  {
    var q := p / s;
    assert q * s == p;
    assert (q * d) * s == (q * s) * d;
  }

  lemma Smaller(a: real, b: real, s: real)
    requires s > 0.0
    ensures a < b <==> a * s < b * s
  {}

  lemma InRange(p: real, s: real, d: real, q: real)
    requires s > 0.0 && d > 0.0 && q * s == p * d
    ensures q < 0.0 <==> p < 0.0
    ensures q < d <==> p < s
  {
    Smaller(q, 0.0, s);
    Smaller(p, 0.0, d);
    Smaller(q, d, s);
    Smaller(p, s, d);
    assert d * s == s * d;
  }

  lemma FloorTimes(q: real, s: real)
    requires s > 0.0
    ensures q.Floor as real * s <= q * s < (q.Floor + 1) as real * s
  {
    Smaller(q, q.Floor as real, s);
    Smaller(q, (q.Floor + 1) as real, s);
  }

  /** The display is cut into as many equal parts as it has pixels; a point maps to the part it lies in. */
  lemma MappedPart(p: real, screen: nat, display: nat)
    requires screen >= 1 && display >= 1
    ensures var m := MapPoint(p, screen, display);
      && (p < 0.0 ==> m == 0)
      && (p >= screen as real ==> m == display - 1)
      && (0.0 <= p < screen as real ==>
            && 0 <= m < display
            && m as real * screen as real <= p * display as real < (m + 1) as real * screen as real)
  {
    var s, d := screen as real, display as real;
    var q := p / s * d;
    Crosswise(p, s, d);
    InRange(p, s, d, q);
    FloorTimes(q, s);
    MapsToFloor(p, screen, display, q);
    hide MapPoint;
    var m := MapPoint(p, screen, display);
    if 0.0 <= p < s {
      assert m == q.Floor && 0 <= m < display;
      assert m as real * s <= q * s < (m + 1) as real * s;
    }
  }

  lemma MapsToFloor(p: real, screen: nat, display: nat, q: real)
    requires screen >= 1 && display >= 1 && q == p / (screen as real) * (display as real)
    ensures MapPoint(p, screen, display)
         == if q < 0.0 then 0 else if q < display as real then q.Floor else display - 1
  {}

  function Clamp(n: int, limit: int): int {
    var low := if n > limit then limit else n;
    if low < 0 then 0 else low
  }

  function ClampBounds(b: Bounds, display: (nat, nat)): Bounds {
    Bounds(Clamp(b.left, display.0), Clamp(b.top, display.1), Clamp(b.right, display.0), Clamp(b.bottom, display.1))
  }

  datatype Confidence = ExactResourceId | Composite | Heuristic

  datatype Target = Target(node: nat, resourceId: Option<string>, confidence: Confidence, bounds: Bounds,
                           clickable: bool)

  datatype Request = Request(x: real, y: real, width: nat, height: nat)

  /** Positions of nodes. */
  predicate Positions(nodes: seq<Node>, path: seq<nat>) {
    forall k :: 0 <= k < |path| ==> path[k] < |nodes|
  }

  /** The candidates in the order of the source: the selected node, then the path, those that cover the point. */
  function Candidates(nodes: seq<Node>, s: Selection, x: int, y: int): (r: seq<nat>)
    requires s.node < |nodes| && Positions(nodes, s.path)
    ensures Positions(nodes, r)
  {
    Covering(nodes, [s.node] + s.path, x, y)
  }

  function Covering(nodes: seq<Node>, path: seq<nat>, x: int, y: int): (r: seq<nat>)
    requires Positions(nodes, path)
    ensures Positions(nodes, r)
  {
    if path == [] then []
    else
      var rest := Covering(nodes, path[1..], x, y);
      if Covers(nodes[path[0]], x, y) then [path[0]] + rest else rest
  }

  lemma {:induction false} CoveringIsPart(nodes: seq<Node>, path: seq<nat>, x: int, y: int, e: nat)
    requires Positions(nodes, path) && e in Covering(nodes, path, x, y)
    ensures e in path && e < |nodes| && Covers(nodes[e], x, y)
    decreases |path|
  {
    hide Covers;
    if path != [] {
      var rest := Covering(nodes, path[1..], x, y);
      if e in rest {
        CoveringIsPart(nodes, path[1..], x, y, e);
      } else {
        assert e == path[0];
      }
    }
  }

  function FirstWithId(nodes: seq<Node>, candidates: seq<nat>): (r: Option<nat>)
    requires Positions(nodes, candidates)
    ensures r.Some? ==> r.value in candidates && r.value < |nodes| && SafeId(nodes[r.value]).Some?
  {
    if candidates == [] then None
    else if SafeId(nodes[candidates[0]]).Some? then Some(candidates[0])
    else FirstWithId(nodes, candidates[1..])
  }

  function FirstWithText(nodes: seq<Node>, candidates: seq<nat>): (r: Option<nat>)
    requires Positions(nodes, candidates)
    ensures r.Some? ==> r.value in candidates && r.value < |nodes| && HasText(nodes[r.value])
  {
    if candidates == [] then None
    else if HasText(nodes[candidates[0]]) then Some(candidates[0])
    else FirstWithText(nodes, candidates[1..])
  }

  function Chosen(nodes: seq<Node>, s: Selection, x: int, y: int): (r: nat)
    ensures r < |nodes|
    requires s.node < |nodes| && Positions(nodes, s.path)
  {
    var candidates := Candidates(nodes, s, x, y);
    if FirstWithId(nodes, candidates).Some? then FirstWithId(nodes, candidates).value
    else if FirstWithText(nodes, candidates).Some? then FirstWithText(nodes, candidates).value
    else s.node
  }

  lemma {:induction false} FirstWithIdIsFirst(nodes: seq<Node>, candidates: seq<nat>)
    requires Positions(nodes, candidates)
    ensures var r := FirstWithId(nodes, candidates);
      && (r.None? <==> forall k :: 0 <= k < |candidates| ==> SafeId(nodes[candidates[k]]).None?)
      && (r.Some? ==> exists k :: 0 <= k < |candidates| && candidates[k] == r.value
                                  && forall j :: 0 <= j < k ==> SafeId(nodes[candidates[j]]).None?)
    decreases |candidates|
  {
    hide SafeId;
    if candidates != [] && SafeId(nodes[candidates[0]]).None? {
      FirstWithIdIsFirst(nodes, candidates[1..]);
      var r := FirstWithId(nodes, candidates[1..]);
      if r.Some? {
        var k :| 0 <= k < |candidates[1..]| && candidates[1..][k] == r.value
                 && forall j :: 0 <= j < k ==> SafeId(nodes[candidates[1..][j]]).None?;
        assert candidates[k + 1] == r.value;
        assert forall j :: 0 < j < k + 1 ==> candidates[j] == candidates[1..][j - 1];
      } else {
        assert forall j :: 0 < j < |candidates| ==> candidates[j] == candidates[1..][j - 1];
      }
    }
  }

  lemma {:induction false} FirstWithTextIsFirst(nodes: seq<Node>, candidates: seq<nat>)
    requires Positions(nodes, candidates)
    ensures var r := FirstWithText(nodes, candidates);
      && (r.None? <==> forall k :: 0 <= k < |candidates| ==> !HasText(nodes[candidates[k]]))
      && (r.Some? ==> exists k :: 0 <= k < |candidates| && candidates[k] == r.value
                                  && forall j :: 0 <= j < k ==> !HasText(nodes[candidates[j]]))
    decreases |candidates|
  {
    hide HasText;
    if candidates != [] && !HasText(nodes[candidates[0]]) {
      FirstWithTextIsFirst(nodes, candidates[1..]);
      var r := FirstWithText(nodes, candidates[1..]);
      if r.Some? {
        var k :| 0 <= k < |candidates[1..]| && candidates[1..][k] == r.value
                 && forall j :: 0 <= j < k ==> !HasText(nodes[candidates[1..][j]]);
        assert candidates[k + 1] == r.value;
        assert forall j :: 0 < j < k + 1 ==> candidates[j] == candidates[1..][j - 1];
      } else {
        assert forall j :: 0 < j < |candidates| ==> candidates[j] == candidates[1..][j - 1];
      }
    }
  }

  lemma {:induction false} CoveringHoldsAll(nodes: seq<Node>, path: seq<nat>, x: int, y: int, e: nat)
    requires Positions(nodes, path) && e in path && Covers(nodes[e], x, y)
    ensures e in Covering(nodes, path, x, y)
    decreases |path|
  {
    hide Covers;
    if e != path[0] {
      CoveringHoldsAll(nodes, path[1..], x, y, e);
    }
  }

  predicate HasIdAt(nodes: seq<Node>, x: int, y: int, i: nat) {
    i < |nodes| && Covers(nodes[i], x, y) && SafeId(nodes[i]).Some?
  }

  predicate HasTextAt(nodes: seq<Node>, x: int, y: int, i: nat) {
    i < |nodes| && Covers(nodes[i], x, y) && HasText(nodes[i])
  }

  /**
   * Which node gives the target: the selected one when it has an identifier; else a
   * covering node of the path with an identifier, if there is one; else a covering
   * node with a text, the selected one first; else the selected one.
   */
  lemma {:induction false} ChosenBySemantics(nodes: seq<Node>, s: Selection, x: int, y: int)
    requires s.node < |nodes| && Positions(nodes, s.path) && Covers(nodes[s.node], x, y)
    ensures HasIdAt(nodes, x, y, s.node) ==> Chosen(nodes, s, x, y) == s.node
    ensures (exists e :: e in s.path && HasIdAt(nodes, x, y, e)) ==> HasIdAt(nodes, x, y, Chosen(nodes, s, x, y))
    ensures (forall e :: e in [s.node] + s.path ==> !HasIdAt(nodes, x, y, e)) ==>
      && (HasTextAt(nodes, x, y, s.node) ==> Chosen(nodes, s, x, y) == s.node)
      && ((exists e :: e in s.path && HasTextAt(nodes, x, y, e)) ==> HasTextAt(nodes, x, y, Chosen(nodes, s, x, y)))
      && ((forall e :: e in [s.node] + s.path ==> !HasTextAt(nodes, x, y, e)) ==> Chosen(nodes, s, x, y) == s.node)
  {
    hide Covers, SafeId, HasText;
    var candidates := Candidates(nodes, s, x, y);
    assert candidates != [] && candidates[0] == s.node;
    FirstWithIdIsFirst(nodes, candidates);
    FirstWithTextIsFirst(nodes, candidates);
    forall e | e in s.path && e < |nodes| && Covers(nodes[e], x, y)
      ensures e in candidates
    {
      CoveringHoldsAll(nodes, [s.node] + s.path, x, y, e);
    }
    forall e | e in candidates
      ensures e in [s.node] + s.path && e < |nodes| && Covers(nodes[e], x, y)
    {
      CoveringIsPart(nodes, [s.node] + s.path, x, y, e);
    }
  }

  function IdCount(nodes: seq<Node>, id: string): nat {
    if nodes == [] then 0
    else IdCount(nodes[..|nodes| - 1], id) + (if SafeId(nodes[|nodes| - 1]) == Some(id) then 1 else 0)
  }

  function Describe(nodes: seq<Node>, chosen: nat, bounds: Bounds): Target
    requires chosen < |nodes|
  {
    var n := nodes[chosen];
    var id := SafeId(n);
    Target(chosen, id,
           if id.Some? && IdCount(nodes, id.value) == 1 then ExactResourceId
           else if id.Some? || HasText(n) then Composite else Heuristic,
           bounds, Clickable(n))
  }

  /** The integer point and the display a request is about. */
  function PointOf(r: Request, display: (nat, nat)): (int, int)
    requires r.width >= 1 && r.height >= 1 && display.0 >= 1 && display.1 >= 1
  {
    (MapPoint(r.x, r.width, display.0), MapPoint(r.y, r.height, display.1))
  }

  predicate SameOrientation(r: Request, display: (nat, nat)) {
    Sign(r.width - r.height) == Sign(display.0 - display.1)
  }

  function Resolve(nodes: seq<Node>, r: Request, display: (nat, nat)): Option<Target>
    requires ParentsFirst(nodes) && r.width >= 1 && r.height >= 1 && display.0 >= 1 && display.1 >= 1
  {
    if !SameOrientation(r, display) then None
    else
      var (x, y) := PointOf(r, display);
      var selection := Select(nodes, x, y);
      SelectionIsRight(nodes, x, y);
      if selection.None? then None
      else
        var chosen := Chosen(nodes, selection.value, x, y);
        var bounds := BoundsOf(nodes[chosen]);
        if bounds.None? then None
        else
          var clamped := ClampBounds(bounds.value, display);
          if clamped.right <= clamped.left || clamped.bottom <= clamped.top then None
          else Some(Describe(nodes, chosen, clamped))
  }

  // ------------------------------------------------------------- theorems

  lemma MappedPointIsInside(r: Request, display: (nat, nat))
    requires r.width >= 1 && r.height >= 1 && display.0 >= 1 && display.1 >= 1
    ensures var (x, y) := PointOf(r, display); 0 <= x < display.0 && 0 <= y < display.1
  {}

  lemma ClampedContains(b: Bounds, display: (nat, nat), x: int, y: int)
    requires Contains(b, x, y) && 0 <= x < display.0 && 0 <= y < display.1
    ensures var c := ClampBounds(b, display);
            Contains(c, x, y) && 0 <= c.left && c.right <= display.0 && 0 <= c.top && c.bottom <= display.1
  {}

  lemma {:induction false} ChosenCovers(nodes: seq<Node>, s: Selection, x: int, y: int)
    requires s.node < |nodes| && Positions(nodes, s.path) && Covers(nodes[s.node], x, y)
    ensures Chosen(nodes, s, x, y) < |nodes| && Covers(nodes[Chosen(nodes, s, x, y)], x, y)
    ensures Chosen(nodes, s, x, y) in [s.node] + s.path
  {
    hide Covers, SafeId, HasText;
    var candidates := Candidates(nodes, s, x, y);
    var chosen := Chosen(nodes, s, x, y);
    if chosen in candidates {
      CoveringIsPart(nodes, [s.node] + s.path, x, y, chosen);
    }
  }

  /**
   * A target is returned exactly when the orientations agree and some visible node covers the mapped point; its
   * bounds lie inside the display and contain that point.
   */
  lemma {:induction false} TargetIffCovered(nodes: seq<Node>, r: Request, display: (nat, nat))
    requires ParentsFirst(nodes) && r.width >= 1 && r.height >= 1 && display.0 >= 1 && display.1 >= 1
    ensures var (x, y) := PointOf(r, display);
            Resolve(nodes, r, display).Some? <==> SameOrientation(r, display) && exists n ::
              n in nodes
              && Covers(n, x, y)
    ensures Resolve(nodes, r, display).Some? ==>
              var (x, y) := PointOf(r, display);
              var b := Resolve(nodes, r, display).value.bounds;
              Contains(b, x, y) && 0 <= b.left && b.right <= display.0 && 0 <= b.top && b.bottom <= display.1
  {
    hide BoundsOf, Select, Chosen, Describe, PointOf, ClampBounds, SameOrientation;
    var (x, y) := PointOf(r, display);
    MappedPointIsInside(r, display);
    SelectionIsRight(nodes, x, y);
    if Select(nodes, x, y).Some? {
      var s := Select(nodes, x, y).value;
      ChosenCovers(nodes, s, x, y);
      var b := BoundsOf(nodes[Chosen(nodes, s, x, y)]).value;
      ClampedContains(b, display, x, y);
      DescribedBounds(nodes, Chosen(nodes, s, x, y), ClampBounds(b, display));
    }
  }

  lemma DescribedBounds(nodes: seq<Node>, chosen: nat, bounds: Bounds)
    requires chosen < |nodes|
    ensures Describe(nodes, chosen, bounds).bounds == bounds && Describe(nodes, chosen, bounds).node == chosen
  {}

  lemma {:induction false} OneOccurrence(nodes: seq<Node>, id: string)
    ensures (IdCount(nodes, id) == 0 <==> forall i :: 0 <= i < |nodes| ==> SafeId(nodes[i]) != Some(id))
    ensures IdCount(nodes, id) == 1 ==> forall i, j :: 0 <= i < j < |nodes| && SafeId(nodes[i]) == Some(id) ==>
            SafeId(nodes[j]) != Some(id)
    ensures (exists i, j :: 0 <= i < j < |nodes| && SafeId(nodes[i]) == Some(id) && SafeId(nodes[j]) == Some(id))
            ==> IdCount(nodes, id) >= 2
    decreases |nodes|
  {
    hide SafeId;
    if nodes != [] {
      OneOccurrence(nodes[..|nodes| - 1], id);
      assert forall i :: 0 <= i < |nodes| - 1 ==> nodes[..|nodes| - 1][i] == nodes[i];
    }
  }

  /** The exact confidence means that no other node of the hierarchy has the identifier. */
  lemma {:induction false} ExactMeansUnique(nodes: seq<Node>, chosen: nat, bounds: Bounds)
    requires chosen < |nodes|
    ensures Describe(nodes, chosen, bounds).confidence == ExactResourceId
       <==> SafeId(nodes[chosen]).Some? && forall i :: 0 <= i < |nodes| && i != chosen ==>
         SafeId(nodes[i]) != SafeId(nodes[chosen])
  {
    hide SafeId, HasText;
    if SafeId(nodes[chosen]).Some? {
      OneOccurrence(nodes, SafeId(nodes[chosen]).value);
      UniqueCount(nodes, chosen);
    }
  }

  lemma {:induction false} UniqueCount(nodes: seq<Node>, chosen: nat)
    requires chosen < |nodes| && SafeId(nodes[chosen]).Some?
    ensures (forall i :: 0 <= i < |nodes| && i != chosen ==> SafeId(nodes[i]) != SafeId(nodes[chosen]))
            ==> IdCount(nodes, SafeId(nodes[chosen]).value) == 1
    decreases |nodes|
  {
    hide SafeId;
    var n := |nodes| - 1;
    var id := SafeId(nodes[chosen]).value;
    assert forall i :: 0 <= i < n ==> nodes[..n][i] == nodes[i];
    if chosen < n {
      UniqueCount(nodes[..n], chosen);
    } else {
      OneOccurrence(nodes[..n], id);
    }
  }

  /** On every hierarchy the scanner accepts. */
  lemma {:induction false} AcceptedHierarchiesResolve(output: string)
    requires Parse(output).Ok?
    ensures ParentsFirst(Parse(output).value.nodes)
  {
    hide Parse;
    AcceptedIsWellShaped(output);
  }
}
