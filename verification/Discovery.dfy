/** Paged discovery of an upstream's tools, against any server. */
module Discovery {
  import opened Json
  import opened Schemas
  import PublicRoot
  import Text

  const MAX_PAGES: nat := 16
  const MAX_TOOLS: nat := 4096

  datatype Failure = Output | Protocol | MessageLimit

  /** The bounds every upstream value must respect before it is read. */
  predicate Bounded(v: Value, depth: nat)
    decreases v
  {
    depth <= MAX_SCHEMA_DEPTH
    && match v
       case Str(s) => Text.Utf8Length(s) <= MAX_STRING_BYTES
       case Arr(a) => |a| <= MAX_ARRAY_ITEMS && forall i :: 0 <= i < |a| ==> Bounded(a[i], depth + 1)
       case Obj(m) => forall k :: k in m ==> Text.Utf8Length(k) <= MAX_STRING_BYTES && Bounded(m[k], depth + 1)
       case _ => true
  }

  predicate WellFormedTool(tool: Value) {
    && tool.Obj?
    && "name" in tool.fields && tool.fields["name"].Str?
    && "inputSchema" in tool.fields && tool.fields["inputSchema"].Obj?
  }

  /** A page: an array of named tools with object schemas, and a cursor that is a string if present. */
  predicate ValidPage(reply: Value) {
    && Bounded(reply, 1)
    && reply.Obj?
    && "tools" in reply.fields && reply.fields["tools"].Arr?
    && (forall i :: 0 <= i < |reply.fields["tools"].items| ==> WellFormedTool(reply.fields["tools"].items[i]))
    && ("nextCursor" in reply.fields ==> reply.fields["nextCursor"].Str?)
  }

  function ToolsOf(reply: Value): seq<Value> {
    if reply.Obj? && "tools" in reply.fields && reply.fields["tools"].Arr? then reply.fields["tools"].items else []
  }

  function CursorOf(reply: Value): Option<string> {
    if reply.Obj? && "nextCursor" in reply.fields && reply.fields["nextCursor"].Str?
    then Some(reply.fields["nextCursor"].s)
    else None
  }

  function Concatenated(replies: seq<Value>): seq<Value> {
    if replies == [] then [] else Concatenated(replies[..|replies| - 1]) + ToolsOf(replies[|replies| - 1])
  }

  ghost predicate FreshCursor(replies: seq<Value>, i: nat)
    requires i < |replies|
  {
    CursorOf(replies[i]).Some? && CursorOf(replies[i]).value != ""
    && forall j :: 0 <= j < i ==> CursorOf(replies[j]) != CursorOf(replies[i])
  }

  // What a page is, by its JSON.

  ghost predicate SmallNode(v: Value) {
    match v
    case Str(s) => Text.Utf8Length(s) <= MAX_STRING_BYTES
    case Arr(a) => |a| <= MAX_ARRAY_ITEMS
    case Obj(m) => forall k :: k in m ==> Text.Utf8Length(k) <= MAX_STRING_BYTES
    case _ => true
  }

  ghost predicate SmallAt(v: Value, depth: nat, steps: seq<PublicRoot.Step>) {
    PublicRoot.Inside(v, steps).Some? ==>
      depth + |steps| <= MAX_SCHEMA_DEPTH && SmallNode(PublicRoot.Inside(v, steps).value)
  }

  ghost predicate SmallThroughout(v: Value, depth: nat) {
    forall steps :: SmallAt(v, depth, steps)
  }

  lemma SmallMember(m: map<string, Value>, depth: nat, k: string)
    requires k in m && SmallThroughout(Obj(m), depth)
    ensures SmallThroughout(m[k], depth + 1)
  {
    hide SmallNode;
    var next := depth + 1;
    forall steps ensures SmallAt(m[k], next, steps) {
      PublicRoot.InsideMember(m, k, steps);
      assert SmallAt(Obj(m), depth, [PublicRoot.Member(k)] + steps);
    }
  }

  lemma SmallItem(a: seq<Value>, depth: nat, i: nat)
    requires i < |a| && SmallThroughout(Arr(a), depth)
    ensures SmallThroughout(a[i], depth + 1)
  {
    hide SmallNode;
    var next := depth + 1;
    forall steps ensures SmallAt(a[i], next, steps) {
      PublicRoot.InsideItem(a, i, steps);
      assert SmallAt(Arr(a), depth, [PublicRoot.Item(i)] + steps);
    }
  }

  /** A value is bounded exactly when everything inside it is small and stands no deeper than the limit. */
  lemma {:induction false} BoundedMeans(v: Value, depth: nat)
    ensures Bounded(v, depth) <==> SmallThroughout(v, depth)
    decreases v
  {
    hide SmallThroughout;
    if SmallThroughout(v, depth) { SmallHere(v, depth); }
    match v {
      case Arr(a) =>
        forall i | 0 <= i < |a| ensures Bounded(a[i], depth + 1) <==> SmallThroughout(a[i], depth + 1) {
          BoundedMeans(a[i], depth + 1);
        }
        if SmallThroughout(v, depth) {
          forall i | 0 <= i < |a| ensures SmallThroughout(a[i], depth + 1) { SmallItem(a, depth, i); }
        }
        if Bounded(v, depth) { SmallArray(a, depth); }
      case Obj(m) =>
        forall k | k in m ensures Bounded(m[k], depth + 1) <==> SmallThroughout(m[k], depth + 1) {
          BoundedMeans(m[k], depth + 1);
        }
        if SmallThroughout(v, depth) {
          forall k | k in m ensures SmallThroughout(m[k], depth + 1) { SmallMember(m, depth, k); }
        }
        if Bounded(v, depth) { SmallObject(m, depth); }
      case _ => if Bounded(v, depth) { SmallScalar(v, depth); }
    }
  }

  lemma SmallHere(v: Value, depth: nat)
    requires SmallThroughout(v, depth)
    ensures depth <= MAX_SCHEMA_DEPTH && SmallNode(v)
  {
    assert SmallAt(v, depth, []);
  }

  lemma SmallScalar(v: Value, depth: nat)
    requires !v.Arr? && !v.Obj? && depth <= MAX_SCHEMA_DEPTH && SmallNode(v)
    ensures SmallThroughout(v, depth)
  {}

  lemma SmallArray(a: seq<Value>, depth: nat)
    requires depth <= MAX_SCHEMA_DEPTH && SmallNode(Arr(a))
    requires forall i :: 0 <= i < |a| ==> SmallThroughout(a[i], depth + 1)
    ensures SmallThroughout(Arr(a), depth)
  {
    hide SmallNode;
    forall steps: seq<PublicRoot.Step> ensures SmallAt(Arr(a), depth, steps) {
      if steps != [] && steps[0].Item? && steps[0].index < |a| {
        assert SmallAt(a[steps[0].index], depth + 1, steps[1..]);
      }
    }
  }

  lemma SmallObject(m: map<string, Value>, depth: nat)
    requires depth <= MAX_SCHEMA_DEPTH && SmallNode(Obj(m))
    requires forall k :: k in m ==> SmallThroughout(m[k], depth + 1)
    ensures SmallThroughout(Obj(m), depth)
  {
    hide SmallNode;
    forall steps: seq<PublicRoot.Step> ensures SmallAt(Obj(m), depth, steps) {
      if steps != [] && steps[0].Member? && steps[0].key in m {
        assert SmallAt(m[steps[0].key], depth + 1, steps[1..]);
      }
    }
  }

  /** A reply with these tools, each with a name and an object schema, and this cursor or none at all. */
  ghost predicate IsPage(reply: Value, tools: seq<Value>, cursor: Option<string>) {
    && reply.Obj? && Get(reply.fields, "tools") == Some(Arr(tools))
    && Get(reply.fields, "nextCursor") == (if cursor.Some? then Some(Str(cursor.value)) else None)
    && forall tool :: tool in tools ==>
         && tool.Obj?
         && (exists name :: Get(tool.fields, "name") == Some(Str(name)))
         && (exists schema :: Get(tool.fields, "inputSchema") == Some(Obj(schema)))
  }

  /** A page is valid exactly when everything in it is small and it is a page; its tools and cursor are then its own. */
  lemma PageMeans(reply: Value)
    ensures ValidPage(reply) <==> SmallThroughout(reply, 1) && IsPage(reply, ToolsOf(reply), CursorOf(reply))
    ensures forall tools, cursor :: IsPage(reply, tools, cursor) ==>
              tools == ToolsOf(reply) && cursor == CursorOf(reply)
  {
    hide Bounded;
    hide SmallThroughout;
    BoundedMeans(reply, 1);
    forall tool
      ensures WellFormedTool(tool) <==>
                && tool.Obj?
                && (exists name :: Get(tool.fields, "name") == Some(Str(name)))
                && (exists schema :: Get(tool.fields, "inputSchema") == Some(Obj(schema)))
    {
      ToolMeans(tool);
    }
  }

  lemma ToolMeans(tool: Value)
    ensures WellFormedTool(tool) <==>
              && tool.Obj?
              && (exists name :: Get(tool.fields, "name") == Some(Str(name)))
              && (exists schema :: Get(tool.fields, "inputSchema") == Some(Obj(schema)))
  {
    if WellFormedTool(tool) {
      assert Get(tool.fields, "name") == Some(Str(tool.fields["name"].s));
      assert Get(tool.fields, "inputSchema") == Some(Obj(tool.fields["inputSchema"].fields));
    }
  }

  /** Every page so far is valid, carries a new cursor to continue from, and the tools fit. */
  ghost predicate Continuing(replies: seq<Value>) {
    forall i :: 0 <= i < |replies| ==> ValidPage(replies[i]) && FreshCursor(replies, i)
  }

  /** A complete listing: continuing pages, then a valid one without a cursor, within the limits. */
  ghost predicate Listing(replies: seq<Value>) {
    && 1 <= |replies| <= MAX_PAGES
    && Continuing(replies[..|replies| - 1])
    && ValidPage(replies[|replies| - 1]) && CursorOf(replies[|replies| - 1]).None?
    && |Concatenated(replies)| <= MAX_TOOLS
  }

  /** Reads one page onto the tools so far. */
  method ReadPage(reply: Value, tools: seq<Value>) returns (r: Result<(seq<Value>, Option<string>), Failure>)
    requires |tools| <= MAX_TOOLS
    ensures r.Ok? <==> ValidPage(reply) && |tools + ToolsOf(reply)| <= MAX_TOOLS
    ensures r.Ok? ==> r.value == (tools + ToolsOf(reply), CursorOf(reply))
  {
    hide WellFormedTool;
    hide Bounded;
    if !Bounded(reply, 1) { return Err(Output); }
    if !reply.Obj? || "tools" !in reply.fields || !reply.fields["tools"].Arr? { return Err(Protocol); }
    var page := reply.fields["tools"].items;
    var all := tools;
    for i := 0 to |page|
      invariant all == tools + page[..i] && |all| <= MAX_TOOLS
      invariant forall j :: 0 <= j < i ==> WellFormedTool(page[j])
    {
      if !WellFormedTool(page[i]) { return Err(Protocol); }
      all := all + [page[i]];
      if |all| > MAX_TOOLS { return Err(MessageLimit); }
    }
    assert page[..|page|] == page;
    if "nextCursor" in reply.fields && !reply.fields["nextCursor"].Str? { return Err(Protocol); }
    return Ok((all, CursorOf(reply)));
  }

  /** The first request has no cursor; each later one sends the cursor of the page before it. */
  ghost predicate Follows(requests: seq<Option<string>>, replies: seq<Value>) {
    && (|requests| > 0 ==> requests[0] == None)
    && forall i :: 0 < i < |requests| ==> i <= |replies| && requests[i] == CursorOf(replies[i - 1])
  }

  lemma CursorsDistinct(requests: seq<Option<string>>, replies: seq<Value>)
    requires Follows(requests, replies) && |requests| <= |replies| + 1
    requires |requests| > 0 ==> Continuing(replies[..|requests| - 1])
    ensures forall i, j :: 0 <= i < j < |requests| ==> requests[i] != requests[j]
  {
    hide ValidPage;
    hide CursorOf;
    forall i, j | 0 <= i < j < |requests| ensures requests[i] != requests[j] {
      var front := replies[..|requests| - 1];
      assert front[j - 1] == replies[j - 1];
      CursorIsFresh(front, j - 1);
      if i > 0 { assert front[i - 1] == replies[i - 1]; }
    }
  }

  lemma CursorIsFresh(replies: seq<Value>, j: nat)
    requires Continuing(replies) && j < |replies|
    ensures CursorOf(replies[j]).Some? && forall i :: 0 <= i < j ==> CursorOf(replies[i]) != CursorOf(replies[j])
  {
    hide ValidPage;
    hide CursorOf;
    assert FreshCursor(replies, j);
  }

  lemma ContinuingMore(replies: seq<Value>, reply: Value, seen: set<string>)
    requires Continuing(replies) && ValidPage(reply)
    requires CursorOf(reply).Some? && CursorOf(reply).value != "" && CursorOf(reply).value !in seen
    requires forall i :: 0 <= i < |replies| && CursorOf(replies[i]).Some? ==> CursorOf(replies[i]).value in seen
    ensures Continuing(replies + [reply])
  {
    hide ValidPage;
    hide CursorOf;
    var more := replies + [reply];
    forall i | 0 <= i < |more| ensures ValidPage(more[i]) && FreshCursor(more, i) {
      if i < |replies| { assert FreshCursor(replies, i) && ValidPage(replies[i]) && more[i] == replies[i]; }
    }
  }

  /** The cursors of the pages so far. */
  ghost predicate SeenBy(seen: set<string>, replies: seq<Value>) {
    && (forall i :: 0 <= i < |replies| && CursorOf(replies[i]).Some? ==> CursorOf(replies[i]).value in seen)
    && (forall c :: c in seen ==> exists i :: 0 <= i < |replies| && CursorOf(replies[i]) == Some(c))
  }

  /** What any server can observe: each request carries the last page's cursor, none is repeated, at most 16. */
  ghost predicate Paging(requests: seq<Option<string>>, replies: seq<Value>) {
    && |replies| <= |requests| <= |replies| + 1 && |requests| <= MAX_PAGES
    && Follows(requests, replies)
    && forall i, j :: 0 <= i < j < |requests| ==> requests[i] != requests[j]
  }

  /** The loop between two requests: every request has been answered by a page to continue from. */
  ghost predicate Midway(requests: seq<Option<string>>, replies: seq<Value>, tools: seq<Value>, seen: set<string>,
                         cursor: Option<string>)
  {
    && |requests| == |replies| && Paging(requests, replies)
    && Continuing(replies) && SeenBy(seen, replies)
    && tools == Concatenated(replies) && |tools| <= MAX_TOOLS
    && cursor == if replies == [] then None else CursorOf(replies[|replies| - 1])
  }

  lemma Begin()
    ensures Midway([], [], [], {}, None) && !Listing([]) && Paging([], [])
  {}

  lemma NotYet(requests: seq<Option<string>>, replies: seq<Value>, tools: seq<Value>, seen: set<string>,
               cursor: Option<string>)
    requires Midway(requests, replies, tools, seen, cursor)
    ensures Paging(requests, replies) && !Listing(replies)
  {
    hide ValidPage;
    hide CursorOf;
    if replies != [] { assert FreshCursor(replies, |replies| - 1); }
  }

  lemma Ask(requests: seq<Option<string>>, replies: seq<Value>, tools: seq<Value>, seen: set<string>,
            cursor: Option<string>)
    requires Midway(requests, replies, tools, seen, cursor) && |requests| < MAX_PAGES
    ensures Paging(requests + [cursor], replies)
  {
    hide ValidPage;
    hide CursorOf;
    hide Concatenated;
    hide SeenBy;
    var more := requests + [cursor];
    assert replies[..|more| - 1] == replies;
    CursorsDistinct(more, replies);
  }

  lemma Answer(requests: seq<Option<string>>, replies: seq<Value>, tools: seq<Value>, seen: set<string>,
               cursor: Option<string>, reply: Value)
    requires Midway(requests, replies, tools, seen, cursor) && Paging(requests + [cursor], replies)
    ensures Paging(requests + [cursor], replies + [reply])
    ensures Listing(replies + [reply]) <==>
              ValidPage(reply) && CursorOf(reply).None? && |tools + ToolsOf(reply)| <= MAX_TOOLS
    ensures Concatenated(replies + [reply]) == tools + ToolsOf(reply) && |tools| <= MAX_TOOLS
  {
    hide ValidPage;
    hide CursorOf;
    hide ToolsOf;
    hide SeenBy;
    hide Continuing;
    assert (replies + [reply])[..|replies|] == replies;
  }

  lemma Continue(requests: seq<Option<string>>, replies: seq<Value>, tools: seq<Value>, seen: set<string>,
                 cursor: Option<string>, reply: Value, next: string)
    requires Midway(requests, replies, tools, seen, cursor) && Paging(requests + [cursor], replies)
    requires ValidPage(reply) && |tools + ToolsOf(reply)| <= MAX_TOOLS
    requires CursorOf(reply) == Some(next) && next != "" && next !in seen
    ensures Midway(requests + [cursor], replies + [reply], tools + ToolsOf(reply), seen + {next}, Some(next))
  {
    hide ValidPage;
    hide CursorOf;
    hide ToolsOf;
    hide Paging;
    hide Continuing;
    Answer(requests, replies, tools, seen, cursor, reply);
    ContinuingMore(replies, reply, seen);
    SeenMore(seen, replies, reply, next);
  }

  lemma SeenMore(seen: set<string>, replies: seq<Value>, reply: Value, next: string)
    requires SeenBy(seen, replies) && CursorOf(reply) == Some(next)
    ensures SeenBy(seen + {next}, replies + [reply])
  {
    hide CursorOf;
    var more := replies + [reply];
    forall c | c in seen + {next} ensures exists i :: 0 <= i < |more| && CursorOf(more[i]) == Some(c) {
      if c == next {
        assert CursorOf(more[|replies|]) == Some(c);
      } else {
        var i :| 0 <= i < |replies| && CursorOf(replies[i]) == Some(c);
        assert CursorOf(more[i]) == Some(c);
      }
    }
  }
}
