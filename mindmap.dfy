/**
 * Mind map generation: the overview content gathered from a search
 * (`get_document_content`), the clean-up of the model's JSON reply
 * (`generate_mindmap_with_openai`), the flattening of the branch tree into
 * nodes and edges (`flatten_mind_map_tree`), the Mermaid text
 * (`create_mermaid_diagram`) and the assembly around a central node
 * (`generate_mind_map`). The language model itself is a parameter: its reply
 * text, and the parser `json.loads` as a function from text to a mind map.
 */
module MindMap {
  import opened Text
  import opened Errors
  import opened Remote

  // ---- the branch tree and its flattening ----

  /** One branch of the model's JSON; a missing optional key is `None`, missing `children` is `[]`. */
  datatype Branch = Branch(
    id: string,
    labelText: string,
    level: Option<int>,
    description: Option<string>,
    keyPoints: Option<seq<string>>,
    children: seq<Branch>)

  /** `MindMapNode` */
  datatype Node = Node(
    id: string,
    labelText: string,
    level: int,
    parentId: Option<string>,
    description: string,
    keyPoints: seq<string>)

  /** `{"from": ..., "to": ..., "type": ...}` */
  datatype Relationship = Relationship(fromId: string, toId: string, relType: string)

  /** The node made for one branch, with the defaults `level=1`, `description=""`, `key_points=[]`. */
  function NodeOf(b: Branch, parentId: Option<string>): Node
  {
    Node(b.id, b.labelText, b.level.GetOr(1), parentId, b.description.GetOr(""), b.keyPoints.GetOr([]))
  }

  /** `if parent_id:` holds for a present, non-empty id. */
  predicate Truthy(parentId: Option<string>)
  {
    parentId.Some? && parentId.value != ""
  }

  function ContainsEdges(parentId: Option<string>, b: Branch): seq<Relationship>
  {
    if Truthy(parentId) then [Relationship(parentId.value, b.id, "contains")] else []
  }

  /** The nodes `flatten_mind_map_tree` returns, branch after branch as its loop visits them. */
  function FlatNodes(bs: seq<Branch>, parentId: Option<string>): seq<Node>
    decreases bs
  {
    if bs == [] then []
    else
      var last := bs[|bs| - 1];
      FlatNodes(bs[..|bs| - 1], parentId) + [NodeOf(last, parentId)] + FlatNodes(last.children, Some(last.id))
  }

  /** The relationships `flatten_mind_map_tree` returns. */
  function FlatRels(bs: seq<Branch>, parentId: Option<string>): seq<Relationship>
    decreases bs
  {
    if bs == [] then []
    else
      var last := bs[|bs| - 1];
      FlatRels(bs[..|bs| - 1], parentId) + ContainsEdges(parentId, last) + FlatRels(last.children, Some(last.id))
  }

  /** Pre-order, written the textbook way: a branch, then its subtree, then its siblings. */
  function Preorder(bs: seq<Branch>, parentId: Option<string>): seq<Node>
    decreases bs
  {
    if bs == [] then []
    else [NodeOf(bs[0], parentId)] + Preorder(bs[0].children, Some(bs[0].id)) + Preorder(bs[1..], parentId)
  }

  /** One `contains` edge for every node whose parent id is truthy, in node order. */
  function EdgesOf(nodes: seq<Node>): seq<Relationship>
  {
    if nodes == [] then []
    else
      var n := nodes[|nodes| - 1];
      EdgesOf(nodes[..|nodes| - 1]) + (if Truthy(n.parentId) then [Relationship(n.parentId.value, n.id, "contains")] else [])
  }

  lemma {:induction false} PreorderAppend(a: seq<Branch>, b: seq<Branch>, parentId: Option<string>)
    ensures Preorder(a + b, parentId) == Preorder(a, parentId) + Preorder(b, parentId)
  {
    if a == [] {
      assert a + b == b;
    } else {
      assert (a + b)[0] == a[0] && (a + b)[1..] == a[1..] + b;
      PreorderAppend(a[1..], b, parentId);
    }
  }

  /**
   * Flattening lists every branch of the whole tree exactly once, in
   * pre-order: a branch before its children, siblings in input order.
   */
  lemma {:induction false} FlattenIsPreorder(bs: seq<Branch>, parentId: Option<string>)
    ensures FlatNodes(bs, parentId) == Preorder(bs, parentId)
    decreases bs
  {
    if bs != [] {
      var init, last := bs[..|bs| - 1], bs[|bs| - 1];
      FlattenIsPreorder(init, parentId);
      FlattenIsPreorder(last.children, Some(last.id));
      assert bs == init + [last];
      PreorderAppend(init, [last], parentId);
      assert Preorder([last], parentId) == [NodeOf(last, parentId)] + Preorder(last.children, Some(last.id)) by {
        assert [last][1..] == [];
      }
    }
  }

  lemma {:induction false} EdgesOfAppend(a: seq<Node>, b: seq<Node>)
    ensures EdgesOf(a + b) == EdgesOf(a) + EdgesOf(b)
    decreases |b|
  {
    if b == [] {
      assert a + b == a;
    } else {
      var init := b[..|b| - 1];
      assert (a + b)[..|a + b| - 1] == a + init;
      assert (a + b)[|a + b| - 1] == b[|b| - 1];
      EdgesOfAppend(a, init);
    }
  }

  /** The relationships are exactly one edge per node with a truthy parent, from that parent. */
  lemma {:induction false} RelsAreParentEdges(bs: seq<Branch>, parentId: Option<string>)
    ensures FlatRels(bs, parentId) == EdgesOf(FlatNodes(bs, parentId))
    decreases bs
  {
    if bs != [] {
      var init, last := bs[..|bs| - 1], bs[|bs| - 1];
      RelsAreParentEdges(init, parentId);
      RelsAreParentEdges(last.children, Some(last.id));
      var a, b := FlatNodes(init, parentId), FlatNodes(last.children, Some(last.id));
      EdgesOfAppend(a + [NodeOf(last, parentId)], b);
      EdgesOfAppend(a, [NodeOf(last, parentId)]);
      assert EdgesOf([NodeOf(last, parentId)]) == ContainsEdges(parentId, last) by {
        assert [NodeOf(last, parentId)][..0] == [];
      }
    }
  }

  /** Every branch id in the tree is a non-empty string. */
  predicate IdsNonEmpty(bs: seq<Branch>)
    decreases bs
  {
    forall i :: 0 <= i < |bs| ==> bs[i].id != "" && IdsNonEmpty(bs[i].children)
  }

  /**
   * At the top of the tree there is no parent, so no edge; below it every
   * branch gets one: edges = nodes - top-level branches.
   */
  lemma {:induction false} EdgeCount(bs: seq<Branch>, parentId: Option<string>)
    requires IdsNonEmpty(bs)
    ensures |FlatRels(bs, parentId)| == |FlatNodes(bs, parentId)| - (if Truthy(parentId) then 0 else |bs|)
    decreases bs
  {
    if bs != [] {
      var init, last := bs[..|bs| - 1], bs[|bs| - 1];
      assert IdsNonEmpty(init) by {
        forall i | 0 <= i < |init| ensures init[i].id != "" && IdsNonEmpty(init[i].children) {
          assert init[i] == bs[i];
        }
      }
      EdgeCount(init, parentId);
      EdgeCount(last.children, Some(last.id));
    }
  }

  /** Every node's parent is `parentId`, or the id of a node listed before it. */
  ghost predicate ParentsBefore(ns: seq<Node>, parentId: Option<string>)
  {
    forall i :: 0 <= i < |ns| ==> ns[i].parentId == parentId || exists j :: 0 <= j < i && ns[i].parentId == Some(ns[j].id)
  }

  /** Each node's parent is the enclosing branch: the given parent at the top, else a node listed earlier. */
  lemma {:induction false} ParentsComeFirst(bs: seq<Branch>, parentId: Option<string>)
    ensures ParentsBefore(FlatNodes(bs, parentId), parentId)
    decreases bs
  {
    if bs != [] {
      var init, last := bs[..|bs| - 1], bs[|bs| - 1];
      ParentsComeFirst(init, parentId);
      ParentsComeFirst(last.children, Some(last.id));
      var a, c := FlatNodes(init, parentId), FlatNodes(last.children, Some(last.id));
      var ns := FlatNodes(bs, parentId);
      assert ns == a + [NodeOf(last, parentId)] + c;
      var k := |a|;
      forall i | 0 <= i < |ns|
        ensures ns[i].parentId == parentId || exists j :: 0 <= j < i && ns[i].parentId == Some(ns[j].id)
      {
        if i < k {
          assert ns[i] == a[i];
          if a[i].parentId != parentId {
            assert exists j :: 0 <= j < i && a[i].parentId == Some(a[j].id);
            var j :| 0 <= j < i && a[i].parentId == Some(a[j].id);
            assert ns[j] == a[j];
          }
        } else if i > k {
          var ci := i - k - 1;
          assert ns[i] == c[ci];
          if c[ci].parentId == Some(last.id) {
            assert ns[k].id == last.id;
          } else {
            assert exists j :: 0 <= j < ci && c[ci].parentId == Some(c[j].id);
            var j :| 0 <= j < ci && c[ci].parentId == Some(c[j].id);
            assert ns[j + k + 1] == c[j];
          }
        }
      }
    }
  }

  /** One more turn of the loop in `flatten_mind_map_tree`. */
  lemma FlattenStep(bs: seq<Branch>, i: nat, parentId: Option<string>)
    requires i < |bs|
    ensures FlatNodes(bs[..i + 1], parentId) ==
              FlatNodes(bs[..i], parentId) + ([NodeOf(bs[i], parentId)] + FlatNodes(bs[i].children, Some(bs[i].id)))
    ensures FlatRels(bs[..i + 1], parentId) ==
              FlatRels(bs[..i], parentId) + (ContainsEdges(parentId, bs[i]) + FlatRels(bs[i].children, Some(bs[i].id)))
  {
    assert bs[..i + 1][..i] == bs[..i];
    var a, n, c := FlatNodes(bs[..i], parentId), [NodeOf(bs[i], parentId)], FlatNodes(bs[i].children, Some(bs[i].id));
    assert a + n + c == a + (n + c);
    var ra, rn, rc := FlatRels(bs[..i], parentId), ContainsEdges(parentId, bs[i]), FlatRels(bs[i].children, Some(bs[i].id));
    assert ra + rn + rc == ra + (rn + rc);
  }

  /** `flatten_mind_map_tree` */
  method FlattenMindMapTree(branches: seq<Branch>, parentId: Option<string>)
    returns (nodes: seq<Node>, relationships: seq<Relationship>)
    ensures nodes == FlatNodes(branches, parentId)
    ensures relationships == FlatRels(branches, parentId)
    decreases branches
  {
    nodes, relationships := [], [];
    var i := 0;
    while i < |branches|
      invariant 0 <= i <= |branches|
      invariant nodes == FlatNodes(branches[..i], parentId)
      invariant relationships == FlatRels(branches[..i], parentId)
    {
      var branch := branches[i];
      assert branch in branches;
      FlattenStep(branches, i, parentId);
      var branchNodes, branchRelationships := FlattenBranch(branch, parentId);
      nodes := nodes + branchNodes;
      relationships := relationships + branchRelationships;
      i := i + 1;
    }
    assert branches[..i] == branches;
  }

  /** The body of the loop in `flatten_mind_map_tree`: one branch, then its subtree. */
  method FlattenBranch(branch: Branch, parentId: Option<string>)
    returns (nodes: seq<Node>, relationships: seq<Relationship>)
    ensures nodes == [NodeOf(branch, parentId)] + FlatNodes(branch.children, Some(branch.id))
    ensures relationships == ContainsEdges(parentId, branch) + FlatRels(branch.children, Some(branch.id))
    decreases branch
  {
    nodes := [NodeOf(branch, parentId)];
    relationships := [];
    if Truthy(parentId) {
      relationships := [Relationship(parentId.value, branch.id, "contains")];
    }
    var childNodes, childRelationships := [], [];
    if branch.children != [] {
      childNodes, childRelationships := FlattenMindMapTree(branch.children, Some(branch.id));
    }
    nodes := nodes + childNodes;
    relationships := relationships + childRelationships;
  }

  // ---- the Mermaid text ----

  /** `label.replace('"', "'")`: a label cannot close the quoted node text early. */
  function EscapeLabel(s: string): (r: string)
    ensures |r| == |s| && '"' !in r
    ensures forall i :: 0 <= i < |s| && s[i] != '"' ==> r[i] == s[i]
  {
    ReplaceChar(s, '"', '\'')
  }

  function NodeLine(n: Node): string
  {
    "    " + n.id + "[\"" + EscapeLabel(n.labelText) + "\"]"
  }

  function RelLine(rel: Relationship): string
  {
    "    " + rel.fromId + " --> " + rel.toId
  }

  /** The lines of the diagram: the header, one line per node, then one line per relationship. */
  function MermaidLines(nodes: seq<Node>, rels: seq<Relationship>): seq<string>
  {
    ["graph TD"] + seq(|nodes|, i requires 0 <= i < |nodes| => NodeLine(nodes[i]))
                 + seq(|rels|, i requires 0 <= i < |rels| => RelLine(rels[i]))
  }

  /** `create_mermaid_diagram` */
  method CreateMermaidDiagram(nodes: seq<Node>, relationships: seq<Relationship>) returns (text: string)
    ensures text == Join(MermaidLines(nodes, relationships), "\n")
  {
    var mermaidLines := ["graph TD"];
    var i := 0;
    while i < |nodes|
      invariant 0 <= i <= |nodes|
      invariant mermaidLines == ["graph TD"] + seq(i, k requires 0 <= k < i => NodeLine(nodes[k]))
    {
      var escaped := ReplaceChar(nodes[i].labelText, '"', '\'');
      mermaidLines := mermaidLines + ["    " + nodes[i].id + "[\"" + escaped + "\"]"];
      i := i + 1;
    }
    var j := 0;
    while j < |relationships|
      invariant 0 <= j <= |relationships|
      invariant mermaidLines == ["graph TD"] + seq(|nodes|, k requires 0 <= k < |nodes| => NodeLine(nodes[k]))
                                + seq(j, k requires 0 <= k < j => RelLine(relationships[k]))
    {
      mermaidLines := mermaidLines + ["    " + relationships[j].fromId + " --> " + relationships[j].toId];
      j := j + 1;
    }
    text := Join(mermaidLines, "\n");
  }

  /** No id or label holds a line break. */
  predicate SingleLine(nodes: seq<Node>, rels: seq<Relationship>)
  {
    && (forall i :: 0 <= i < |nodes| ==> '\n' !in nodes[i].id && '\n' !in nodes[i].labelText)
    && (forall i :: 0 <= i < |rels| ==> '\n' !in rels[i].fromId && '\n' !in rels[i].toId)
  }

  /**
   * When no id or label holds a line break, the diagram reads back line by
   * line: the header, then exactly one line per node and per relationship, in order.
   */
  lemma MermaidReadsBack(nodes: seq<Node>, rels: seq<Relationship>)
    requires SingleLine(nodes, rels)
    ensures var lines := SplitOn(Join(MermaidLines(nodes, rels), "\n"), '\n');
            && |lines| == 1 + |nodes| + |rels|
            && lines[0] == "graph TD"
            && (forall i :: 0 <= i < |nodes| ==> lines[1 + i] == NodeLine(nodes[i]))
            && (forall i :: 0 <= i < |rels| ==> lines[1 + |nodes| + i] == RelLine(rels[i]))
  {
    var lines := MermaidLines(nodes, rels);
    forall i | 0 <= i < |lines| ensures '\n' !in lines[i] {
      if 1 <= i < 1 + |nodes| {
        var n := nodes[i - 1];
        assert lines[i] == NodeLine(n);
        assert '\n' !in EscapeLabel(n.labelText) by {
          forall k | 0 <= k < |n.labelText| ensures EscapeLabel(n.labelText)[k] != '\n' {
            assert n.labelText[k] != '\n';
          }
        }
      } else if i >= 1 + |nodes| {
        assert lines[i] == RelLine(rels[i - 1 - |nodes|]);
      }
    }
    SplitOnJoin(lines, '\n');
  }

  // ---- the model's reply ----

  /** `if s.startswith(p): s = s[len(p):]` */
  function DropPrefix(s: string, p: string): string
  {
    if StartsWith(s, p) then s[|p|..] else s
  }

  /** `if s.endswith(p): s = s[:-len(p)]` */
  function DropSuffix(s: string, p: string): string
  {
    if EndsWith(s, p) then s[..|s| - |p|] else s
  }

  const Fence: string := "```"
  const JsonFence: string := "```json"

  /**
   * The clean-up before `json.loads`: strip, drop a leading "```json", then a
   * leading "```", then a trailing "```", and strip again.
   */
  function StripFences(content: string): string
  {
    Strip(DropSuffix(DropPrefix(DropPrefix(Strip(content), JsonFence), Fence), Fence))
  }

  /** A text without back-ticks has no fence to drop. */
  lemma NoFenceToDrop(s: string)
    requires '`' !in s
    ensures DropPrefix(s, JsonFence) == s && DropPrefix(s, Fence) == s && DropSuffix(s, Fence) == s
  {
    if s != [] {
      assert s[0] != '`' && s[|s| - 1] != '`';
    }
  }

  /** A reply without back-ticks only loses its surrounding white space. */
  lemma UnfencedReplyIsStripped(j: string)
    requires '`' !in j
    ensures StripFences(j) == Strip(j)
  {
    StripKeepsOut(j, '`');
    NoFenceToDrop(Strip(j));
    StripIdempotent(j);
  }

  /** The inside of a fence, with the closing fence still on it. */
  lemma InsideFence(j: string)
    requires j == [] || j[0] != '`'
    ensures DropSuffix(DropPrefix(j + Fence, Fence), Fence) == j
  {
    var t := j + Fence;
    if j != [] {
      assert t[0] == j[0];
    } else {
      assert t == Fence;
    }
    assert t[|t| - |Fence|..] == Fence;
    assert t[..|t| - |Fence|] == j;
  }

  /** A fenced reply has no white space around it to strip. */
  lemma FencedIsStripped(p: string, j: string)
    requires p == JsonFence || p == Fence
    ensures Strip(p + j + Fence) == p + j + Fence
  {
    var t := p + j + Fence;
    assert t[0] == '`' && t[|t| - 1] == '`';
    StripUnchanged(t);
  }

  lemma OpeningFenceDropped(p: string, j: string)
    requires p == JsonFence || p == Fence
    ensures DropPrefix(p + j + Fence, p) == j + Fence
  {
    var t := p + j + Fence;
    assert t[..|p|] == p;
    assert t[|p|..] == j + Fence;
  }

  lemma PlainFenceIsNotJson(j: string)
    requires !StartsWith(j, "json")
    ensures DropPrefix(Fence + j + Fence, JsonFence) == Fence + j + Fence
  {
    var t := Fence + j + Fence;
    if |j| >= 4 {
      assert t[3..7] == j[..4];
    } else if |t| >= 7 {
      assert t[3 + |j|] == '`';
    }
  }

  /**
   * A reply fenced as a JSON code block gives the JSON inside (a JSON text
   * never starts with a back-tick).
   */
  lemma JsonFenceRemoved(j: string)
    requires j == [] || j[0] != '`'
    ensures StripFences(JsonFence + j + Fence) == Strip(j)
  {
    FencedIsStripped(JsonFence, j);
    OpeningFenceDropped(JsonFence, j);
    InsideFence(j);
  }

  /** A reply fenced as a plain code block gives the text inside, unless that text starts with `json`. */
  lemma PlainFenceRemoved(j: string)
    requires (j == [] || j[0] != '`') && !StartsWith(j, "json")
    ensures StripFences(Fence + j + Fence) == Strip(j)
  {
    FencedIsStripped(Fence, j);
    PlainFenceIsNotJson(j);
    OpeningFenceDropped(Fence, j);
    InsideFence(j);
  }

  /** `"```jsonx```"` loses the `json`: the tag is dropped even when it begins the content. */
  lemma JsonTagDroppedFromPlainFence(j: string)
    requires j == [] || j[0] != '`'
    ensures StripFences(Fence + "json" + j + Fence) == Strip(j)
  {
    assert Fence + "json" + j + Fence == JsonFence + j + Fence;
    JsonFenceRemoved(j);
  }

  /** The parts of the parsed JSON that are used. */
  datatype MindMapData = MindMapData(centralTopic: Option<string>, branches: Option<seq<Branch>>)

  /**
   * `generate_mindmap_with_openai` after the request: `reply` is the chat
   * completion's content or the error the call raised; `parse` is `json.loads`,
   * `None` where it raises `JSONDecodeError`.
   */
  function GenerateMindmapWithOpenai(reply: Reply<string>, parse: string -> Option<MindMapData>): (r: Result<MindMapData>)
    ensures reply.Fail? ==> r == Raised(Remote(reply.error))
    ensures reply.Ok? && parse(StripFences(reply.value)).None? ==>
              r == Raised(ValueError("Invalid JSON response from OpenAI: ", None))
    ensures r.Returned? <==> reply.Ok? && parse(StripFences(reply.value)).Some?
    ensures r.Returned? ==> r.value == parse(StripFences(reply.value)).value
  {
    match reply
    case Fail(e) => Raised(Remote(e))
    case Ok(content) =>
      match parse(StripFences(content))
      case None => Raised(ValueError("Invalid JSON response from OpenAI: ", None))
      case Some(data) => Returned(data)
  }

  // ---- get_document_content ----

  /** `list(dict.fromkeys(xs))`: each piece once, where it first occurs. */
  function Dedup(xs: seq<string>): (r: seq<string>)
    ensures forall x :: x in r <==> x in xs
    ensures forall i, j :: 0 <= i < j < |r| ==> r[i] != r[j]
    ensures |r| <= |xs|
  {
    if xs == [] then []
    else
      var d := Dedup(xs[..|xs| - 1]);
      if xs[|xs| - 1] in d then d else d + [xs[|xs| - 1]]
  }

  predicate Distinct(xs: seq<string>)
  {
    forall i, j :: 0 <= i < j < |xs| ==> xs[i] != xs[j]
  }

  /** A list without repeats comes back unchanged. */
  lemma {:induction false} DedupOfDistinct(xs: seq<string>)
    requires Distinct(xs)
    ensures Dedup(xs) == xs
  {
    if xs != [] {
      var init := xs[..|xs| - 1];
      DedupOfDistinct(init);
      assert xs[|xs| - 1] !in init by {
        forall i | 0 <= i < |init| ensures init[i] != xs[|xs| - 1] {
          assert init[i] == xs[i];
        }
      }
      assert init + [xs[|xs| - 1]] == xs;
    }
  }

  lemma DedupIdempotent(xs: seq<string>)
    ensures Dedup(Dedup(xs)) == Dedup(xs)
  {
    DedupOfDistinct(Dedup(xs));
  }

  /** Later pieces never reorder earlier ones: the pieces seen so far keep their places. */
  lemma {:induction false} DedupPrefix(xs: seq<string>, ys: seq<string>)
    ensures Dedup(xs) <= Dedup(xs + ys)
    decreases |ys|
  {
    if ys == [] {
      assert xs + ys == xs;
    } else {
      var init := ys[..|ys| - 1];
      DedupPrefix(xs, init);
      assert (xs + ys)[..|xs + ys| - 1] == xs + init;
    }
  }

  /** The stripped `content` of each extract, leaving out the empty ones. */
  function ExtractTexts(xs: seq<Extract>): (r: seq<string>)
    ensures forall i :: 0 <= i < |r| ==> r[i] != ""
    ensures |r| <= |xs|
  {
    if xs == [] then []
    else
      var text := Strip(xs[|xs| - 1].content.GetOr(""));
      ExtractTexts(xs[..|xs| - 1]) + (if text != "" then [text] else [])
  }

  /** `snippet.strip().replace("<b>", "").replace("</b>", "")` */
  function CleanSnippet(snippet: string): string
  {
    ReplaceAll(ReplaceAll(Strip(snippet), "<b>", ""), "</b>", "")
  }

  /** A snippet without mark-up is only stripped. */
  lemma CleanSnippetWithoutTags(snippet: string)
    requires '<' !in snippet
    ensures CleanSnippet(snippet) == Strip(snippet)
  {
    StripKeepsOut(snippet, '<');
    ReplaceAllAbsent(Strip(snippet), "<b>", "");
    ReplaceAllAbsent(Strip(snippet), "</b>", "");
  }

  /** The cleaned snippets that are not empty. */
  function SnippetTexts(snippets: seq<string>): (r: seq<string>)
    ensures forall i :: 0 <= i < |r| ==> r[i] != ""
    ensures |r| <= |snippets|
  {
    if snippets == [] then []
    else
      var text := CleanSnippet(snippets[|snippets| - 1]);
      SnippetTexts(snippets[..|snippets| - 1]) + (if text != "" then [text] else [])
  }

  /** The text pieces of one hit: segments then answers; the snippets only when those give nothing. */
  function Pieces(hit: SearchHit): (r: seq<string>)
    ensures forall i :: 0 <= i < |r| ==> r[i] != ""
  {
    var fromData := ExtractTexts(hit.data.extractiveSegments.GetOr([])) + ExtractTexts(hit.data.extractiveAnswers.GetOr([]));
    if fromData != [] then fromData else SnippetTexts(hit.snippets)
  }

  function TitleOf(hit: SearchHit): string
  {
    hit.data.title.GetOr("Unknown Document")
  }

  /** One entry of `documents`. */
  datatype Section = Section(title: string, content: string)

  /** The titles of all hits, content or not. */
  function SourcesOf(hits: seq<SearchHit>): set<string>
  {
    set i | 0 <= i < |hits| :: TitleOf(hits[i])
  }

  lemma JoinNonEmpty(parts: seq<string>, sep: string)
    requires parts != [] && parts[0] != ""
    ensures Join(parts, sep) != ""
  {
  }

  /** The section of one hit, if it has any text. */
  function SectionOf(hit: SearchHit): (r: seq<Section>)
    ensures |r| <= 1
    ensures r == [] <==> Pieces(hit) == []
    ensures r != [] ==> r[0].title == TitleOf(hit) && r[0].content != ""
  {
    var pieces := Pieces(hit);
    if pieces == [] then []
    else
      var unique := Dedup(pieces);
      assert unique[0] in pieces;
      JoinNonEmpty(unique, " ");
      [Section(TitleOf(hit), Join(unique, " "))]
  }

  /** A section for every hit with some text, and only for those, in hit order. */
  function SectionsOf(hits: seq<SearchHit>): (r: seq<Section>)
    ensures |r| <= |hits|
    ensures forall k :: 0 <= k < |r| ==> r[k].content != ""
  {
    if hits == [] then [] else SectionsOf(hits[..|hits| - 1]) + SectionOf(hits[|hits| - 1])
  }

  /** No hit has any text. */
  predicate AllSilent(hits: seq<SearchHit>)
  {
    forall i :: 0 <= i < |hits| ==> Pieces(hits[i]) == []
  }

  /** `f` holds of every element of `s`. */
  predicate Every<T>(s: seq<T>, f: T -> bool)
  {
    forall i :: 0 <= i < |s| ==> f(s[i])
  }

  lemma EveryStep<T>(s: seq<T>, f: T -> bool)
    requires s != []
    ensures Every(s, f) <==> Every(s[..|s| - 1], f) && f(s[|s| - 1])
  {
    assert forall i :: 0 <= i < |s| - 1 ==> s[..|s| - 1][i] == s[i];
  }

  lemma AllSilentStep(hits: seq<SearchHit>)
    requires hits != []
    ensures AllSilent(hits) <==> AllSilent(hits[..|hits| - 1]) && Pieces(hits[|hits| - 1]) == []
  {
    var silent := (h: SearchHit) => Pieces(h) == [];
    EveryStep(hits, silent);
    assert AllSilent(hits) <==> Every(hits, silent);
    assert AllSilent(hits[..|hits| - 1]) <==> Every(hits[..|hits| - 1], silent);
  }

  /** There are no sections exactly when no hit has any text. */
  lemma {:induction false} NoSectionsIff(hits: seq<SearchHit>)
    ensures SectionsOf(hits) == [] <==> AllSilent(hits)
  {
    if hits != [] {
      NoSectionsIff(hits[..|hits| - 1]);
      AllSilentStep(hits);
    }
  }

  /** Every section is titled after one of the sources. */
  lemma {:induction false} SectionTitlesAreSources(hits: seq<SearchHit>)
    ensures forall k :: 0 <= k < |SectionsOf(hits)| ==> SectionsOf(hits)[k].title in SourcesOf(hits)
  {
    if hits != [] {
      var init := hits[..|hits| - 1];
      SectionTitlesAreSources(init);
      assert SourcesOf(init) <= SourcesOf(hits) by {
        forall t | t in SourcesOf(init) ensures t in SourcesOf(hits) {
          var i :| 0 <= i < |init| && TitleOf(init[i]) == t;
          assert init[i] == hits[i];
        }
      }
      assert TitleOf(hits[|hits| - 1]) in SourcesOf(hits);
    }
  }

  lemma SourcesStep(hits: seq<SearchHit>, n: nat)
    requires n < |hits|
    ensures SourcesOf(hits[..n + 1]) == SourcesOf(hits[..n]) + {TitleOf(hits[n])}
  {
    var a, b := hits[..n + 1], hits[..n];
    assert forall i :: 0 <= i < n ==> a[i] == b[i];
    assert a[n] == hits[n];
  }

  lemma SectionsStep(hits: seq<SearchHit>, n: nat)
    requires n < |hits|
    ensures SectionsOf(hits[..n + 1]) == SectionsOf(hits[..n]) + SectionOf(hits[n])
  {
    assert hits[..n + 1][..n] == hits[..n];
  }

  /** The dictionary `get_document_content` returns; `sources` is a set turned into a list. */
  datatype DocumentContent = DocumentContent(documents: seq<Section>, sources: set<string>, totalSections: nat)

  /** The body of the loop over the hits: the title and, when the hit has text, its section. */
  method HitSection(result: SearchHit) returns (title: string, section: seq<Section>)
    ensures title == TitleOf(result)
    ensures section == SectionOf(result)
  {
    var docData := result.data;
    title := docData.title.GetOr("Unknown Document");
    var contentPieces := CollectPieces(result);
    section := [];
    if contentPieces != [] {
      var uniqueContent := Dedup(contentPieces);
      section := [Section(title, Join(uniqueContent, " "))];
    }
  }

  /** `get_document_content`: only the first page of the search reply is read. */
  method GetDocumentContent(search: Reply<SearchPage>) returns (r: Result<DocumentContent>)
    ensures search.Fail? ==> r == Raised(Remote(search.error))
    ensures search.Ok? ==> r.Returned?
    ensures search.Ok? ==> && r.value.documents == SectionsOf(search.value.results)
                           && r.value.sources == SourcesOf(search.value.results)
                           && r.value.totalSections == |r.value.documents|
  {
    if search.Fail? {
      return Raised(Remote(search.error));
    }
    var results := search.value.results;
    var documents: seq<Section> := [];
    var sources: set<string> := {};
    var n := 0;
    while n < |results|
      invariant 0 <= n <= |results|
      invariant documents == SectionsOf(results[..n])
      invariant sources == SourcesOf(results[..n])
    {
      var title, section := HitSection(results[n]);
      SectionsStep(results, n);
      SourcesStep(results, n);
      sources := sources + {title};
      documents := documents + section;
      n := n + 1;
    }
    assert results[..n] == results;
    r := Returned(DocumentContent(documents, sources, |documents|));
  }

  lemma ExtractTextsStep(xs: seq<Extract>, k: nat)
    requires k < |xs|
    ensures var text := Strip(xs[k].content.GetOr(""));
            ExtractTexts(xs[..k + 1]) == ExtractTexts(xs[..k]) + (if text != "" then [text] else [])
  {
    assert xs[..k + 1][..k] == xs[..k];
  }

  lemma SnippetTextsStep(snippets: seq<string>, k: nat)
    requires k < |snippets|
    ensures var text := CleanSnippet(snippets[k]);
            SnippetTexts(snippets[..k + 1]) == SnippetTexts(snippets[..k]) + (if text != "" then [text] else [])
  {
    assert snippets[..k + 1][..k] == snippets[..k];
  }

  /** One loop over `extractive_segments` or `extractive_answers`: appends each non-empty stripped `content`. */
  method AppendExtractTexts(pieces: seq<string>, xs: seq<Extract>) returns (contentPieces: seq<string>)
    ensures contentPieces == pieces + ExtractTexts(xs)
  {
    contentPieces := pieces;
    var k := 0;
    while k < |xs|
      invariant 0 <= k <= |xs|
      invariant contentPieces == pieces + ExtractTexts(xs[..k])
    {
      var content := Strip(xs[k].content.GetOr(""));
      ExtractTextsStep(xs, k);
      if content != "" {
        contentPieces := contentPieces + [content];
      }
      k := k + 1;
    }
    assert xs[..k] == xs;
  }

  /** The loop over the snippets: each non-empty cleaned snippet. */
  method CleanSnippets(snippets: seq<string>) returns (contentPieces: seq<string>)
    ensures contentPieces == SnippetTexts(snippets)
  {
    contentPieces := [];
    var j := 0;
    while j < |snippets|
      invariant 0 <= j <= |snippets|
      invariant contentPieces == SnippetTexts(snippets[..j])
    {
      var snippetText := ReplaceAll(ReplaceAll(Strip(snippets[j]), "<b>", ""), "</b>", "");
      SnippetTextsStep(snippets, j);
      if snippetText != "" {
        contentPieces := contentPieces + [snippetText];
      }
      j := j + 1;
    }
    assert snippets[..j] == snippets;
  }

  /** The loops of `get_document_content` that gather one hit's pieces. */
  method CollectPieces(result: SearchHit) returns (contentPieces: seq<string>)
    ensures contentPieces == Pieces(result)
  {
    var docData := result.data;
    contentPieces := AppendExtractTexts([], docData.extractiveSegments.GetOr([]));
    contentPieces := AppendExtractTexts(contentPieces, docData.extractiveAnswers.GetOr([]));
    if contentPieces == [] {
      contentPieces := CleanSnippets(result.snippets);
    }
  }

  // ---- generate_mind_map ----

  /** `MindMapResponse` without `generation_time`. */
  datatype MindMapResponse = MindMapResponse(
    title: string,
    centralTopic: string,
    nodes: seq<Node>,
    relationships: seq<Relationship>,
    mermaidDiagram: string,
    totalNodes: nat,
    sourcesUsed: nat)

  function TopicOf(data: MindMapData): string
  {
    data.centralTopic.GetOr("Document Overview")
  }

  function BranchesOf(data: MindMapData): seq<Branch>
  {
    data.branches.GetOr([])
  }

  function CentralNode(data: MindMapData): Node
  {
    Node("0", TopicOf(data), 0, None, "Central concept", [])
  }

  /** The edges from the central node, as repeated `insert(0, ...)` leaves them: last branch first. */
  function CentralEdges(bs: seq<Branch>): seq<Relationship>
  {
    seq(|bs|, k requires 0 <= k < |bs| => Relationship("0", bs[|bs| - 1 - k].id, "contains"))
  }

  lemma CentralEdgesStep(bs: seq<Branch>, k: nat)
    requires k < |bs|
    ensures CentralEdges(bs[..k + 1]) == [Relationship("0", bs[k].id, "contains")] + CentralEdges(bs[..k])
  {
    var longer, shorter := CentralEdges(bs[..k + 1]), CentralEdges(bs[..k]);
    var expected := [Relationship("0", bs[k].id, "contains")] + shorter;
    assert |longer| == |expected|;
    forall i | 0 <= i < |longer| ensures longer[i] == expected[i] {
      if i > 0 {
        assert expected[i] == shorter[i - 1];
      }
    }
  }

  /** The mind map assembled from the parsed JSON and the number of sources. */
  function MindMapOf(data: MindMapData, sourcesUsed: nat): MindMapResponse
  {
    var bs := BranchesOf(data);
    var nodes := [CentralNode(data)] + FlatNodes(bs, None);
    var rels := CentralEdges(bs) + FlatRels(bs, None);
    MindMapResponse("Mind Map: Document Overview", TopicOf(data), nodes, rels,
                    Join(MermaidLines(nodes, rels), "\n"), |nodes|, sourcesUsed)
  }

  /** What `generate_mind_map` returns or raises, given the search reply and the model's reply. */
  function MindMapOutcome(search: Reply<SearchPage>, reply: Reply<string>, parse: string -> Option<MindMapData>)
    : (r: Result<MindMapResponse>)
    ensures search.Fail? ==> r == Raised(ValueError("Failed to retrieve documents: ", Some(Remote(search.error))))
    ensures search.Ok? && SectionsOf(search.value.results) == [] ==>
              r == Raised(ValueError("No documents found in the engine for overview generation.", None))
    ensures search.Ok? && SectionsOf(search.value.results) != [] && GenerateMindmapWithOpenai(reply, parse).Raised? ==>
              r == Raised(ValueError("Failed to generate mind map with OpenAI: ",
                                     Some(GenerateMindmapWithOpenai(reply, parse).failure)))
    ensures r.Returned? <==>
              search.Ok? && SectionsOf(search.value.results) != [] && GenerateMindmapWithOpenai(reply, parse).Returned?
    ensures r.Returned? ==>
              r.value == MindMapOf(GenerateMindmapWithOpenai(reply, parse).value, |SourcesOf(search.value.results)|)
  {
    match search
    case Fail(e) => Raised(ValueError("Failed to retrieve documents: ", Some(Remote(e))))
    case Ok(page) =>
      if SectionsOf(page.results) == [] then
        Raised(ValueError("No documents found in the engine for overview generation.", None))
      else
        match GenerateMindmapWithOpenai(reply, parse)
        case Raised(f) => Raised(ValueError("Failed to generate mind map with OpenAI: ", Some(f)))
        case Returned(data) => Returned(MindMapOf(data, |SourcesOf(page.results)|))
  }

  /** The loop of `generate_mind_map` that inserts an edge from the central node per top-level branch at the front. */
  method InsertCentralEdges(branches: seq<Branch>, treeRels: seq<Relationship>) returns (relationships: seq<Relationship>)
    ensures relationships == CentralEdges(branches) + treeRels
  {
    relationships := treeRels;
    var k := 0;
    while k < |branches|
      invariant 0 <= k <= |branches|
      invariant relationships == CentralEdges(branches[..k]) + treeRels
    {
      CentralEdgesStep(branches, k);
      relationships := [Relationship("0", branches[k].id, "contains")] + relationships;
      k := k + 1;
    }
    assert branches[..k] == branches;
  }

  /** `generate_mind_map` after its two calls: the tree flattened, the central node and its edges, the diagram. */
  method AssembleMindMap(data: MindMapData, sourcesUsed: nat) returns (m: MindMapResponse)
    ensures m == MindMapOf(data, sourcesUsed)
  {
    var branches := data.branches.GetOr([]);
    var nodes, treeRels := FlattenMindMapTree(branches, None);
    var centralNode := Node("0", data.centralTopic.GetOr("Document Overview"), 0, None, "Central concept", []);
    var relationships := InsertCentralEdges(branches, treeRels);
    var allNodes := [centralNode] + nodes;
    var mermaidSyntax := CreateMermaidDiagram(allNodes, relationships);
    m := MindMapResponse("Mind Map: Document Overview", data.centralTopic.GetOr("Document Overview"),
                         allNodes, relationships, mermaidSyntax, |allNodes|, sourcesUsed);
  }

  /** `generate_mind_map`; the model's reply is given, and the elapsed time is left out. */
  method GenerateMindMap(search: Reply<SearchPage>, reply: Reply<string>, parse: string -> Option<MindMapData>)
    returns (r: Result<MindMapResponse>)
    ensures r == MindMapOutcome(search, reply, parse)
  {
    var docData := GetDocumentContent(search);
    if docData.Raised? {
      return Raised(ValueError("Failed to retrieve documents: ", Some(docData.failure)));
    }
    if docData.value.documents == [] {
      return Raised(ValueError("No documents found in the engine for overview generation.", None));
    }
    var mindMapData := GenerateMindmapWithOpenai(reply, parse);
    if mindMapData.Raised? {
      return Raised(ValueError("Failed to generate mind map with OpenAI: ", Some(mindMapData.failure)));
    }
    var response := AssembleMindMap(mindMapData.value, |docData.value.sources|);
    r := Returned(response);
  }

  // ---- what the assembled mind map promises ----

  /** The central node comes first, and the node count is the length of the node list. */
  lemma CentralNodeFirst(data: MindMapData, sourcesUsed: nat)
    ensures var m := MindMapOf(data, sourcesUsed);
            && m.nodes[0].id == "0" && m.nodes[0].level == 0 && m.nodes[0].parentId.None?
            && m.nodes[0].labelText == m.centralTopic
            && m.totalNodes == |m.nodes| == 1 + |FlatNodes(BranchesOf(data), None)|
            && m.nodes[1..] == Preorder(BranchesOf(data), None)
  {
    FlattenIsPreorder(BranchesOf(data), None);
  }

  /** With non-empty branch ids the map is a tree: one edge per node but the central one. */
  lemma OneEdgePerNode(data: MindMapData, sourcesUsed: nat)
    requires IdsNonEmpty(BranchesOf(data))
    ensures |MindMapOf(data, sourcesUsed).relationships| == MindMapOf(data, sourcesUsed).totalNodes - 1
  {
    EdgeCount(BranchesOf(data), None);
  }

  /** Every top-level branch appears among the flattened nodes. */
  lemma {:induction false} TopLevelListed(bs: seq<Branch>, parentId: Option<string>, j: nat)
    requires j < |bs|
    ensures exists i :: 0 <= i < |FlatNodes(bs, parentId)| && FlatNodes(bs, parentId)[i].id == bs[j].id
    decreases bs
  {
    var init := bs[..|bs| - 1];
    var ns := FlatNodes(bs, parentId);
    if j == |bs| - 1 {
      assert ns[|FlatNodes(init, parentId)|].id == bs[j].id;
    } else {
      TopLevelListed(init, parentId, j);
      var i :| 0 <= i < |FlatNodes(init, parentId)| && FlatNodes(init, parentId)[i].id == init[j].id;
      assert ns[i] == FlatNodes(init, parentId)[i];
    }
  }

  /** Each `contains` edge among the nodes runs from a node's parent to that node. */
  lemma {:induction false} EdgesOfMembers(ns: seq<Node>, k: nat)
    requires k < |EdgesOf(ns)|
    ensures exists i :: 0 <= i < |ns| && Truthy(ns[i].parentId) &&
                        EdgesOf(ns)[k] == Relationship(ns[i].parentId.value, ns[i].id, "contains")
  {
    var init := ns[..|ns| - 1];
    if k < |EdgesOf(init)| {
      EdgesOfMembers(init, k);
      var i :| 0 <= i < |init| && Truthy(init[i].parentId) &&
               EdgesOf(init)[k] == Relationship(init[i].parentId.value, init[i].id, "contains");
      assert ns[i] == init[i];
    } else {
      assert EdgesOf(ns)[k] == Relationship(ns[|ns| - 1].parentId.value, ns[|ns| - 1].id, "contains");
    }
  }

  /** An edge from the central node leads to a top-level node of the flattened tree. */
  lemma CentralEdgeJoins(bs: seq<Branch>, k: nat)
    requires k < |CentralEdges(bs)|
    ensures CentralEdges(bs)[k].fromId == "0"
    ensures exists i :: 0 <= i < |FlatNodes(bs, None)| && FlatNodes(bs, None)[i].id == CentralEdges(bs)[k].toId
  {
    TopLevelListed(bs, None, |bs| - 1 - k);
  }

  /** A tree edge runs from a node listed earlier to a node listed later. */
  lemma TreeEdgeJoins(bs: seq<Branch>, e: nat)
    requires e < |FlatRels(bs, None)|
    ensures var flat := FlatNodes(bs, None);
            exists i, j :: 0 <= j < i < |flat| && FlatRels(bs, None)[e].fromId == flat[j].id &&
                           FlatRels(bs, None)[e].toId == flat[i].id
  {
    var flat := FlatNodes(bs, None);
    RelsAreParentEdges(bs, None);
    EdgesOfMembers(flat, e);
    var i :| 0 <= i < |flat| && Truthy(flat[i].parentId) &&
             EdgesOf(flat)[e] == Relationship(flat[i].parentId.value, flat[i].id, "contains");
    ParentsComeFirst(bs, None);
    assert exists j :: 0 <= j < i && flat[i].parentId == Some(flat[j].id);
    var j :| 0 <= j < i && flat[i].parentId == Some(flat[j].id);
    assert FlatRels(bs, None)[e].fromId == flat[j].id;
  }

  /** Node `i` of `flat` is node `i + 1` once the central node is put in front. */
  lemma IdBehindCentral(central: Node, flat: seq<Node>, i: nat, id: string)
    requires i < |flat| && flat[i].id == id
    ensures exists n :: 0 <= n < |[central] + flat| && ([central] + flat)[n].id == id
  {
    assert ([central] + flat)[i + 1] == flat[i];
  }

  /** The central node with the flattened tree, and its edges with the tree's: every edge joins two of the nodes. */
  lemma GraphEdgesJoin(central: Node, bs: seq<Branch>, k: nat)
    requires central.id == "0"
    requires k < |CentralEdges(bs) + FlatRels(bs, None)|
    ensures var nodes, rels := [central] + FlatNodes(bs, None), CentralEdges(bs) + FlatRels(bs, None);
            && (exists i :: 0 <= i < |nodes| && nodes[i].id == rels[k].fromId)
            && (exists i :: 0 <= i < |nodes| && nodes[i].id == rels[k].toId)
  {
    var flat := FlatNodes(bs, None);
    var central', tree := CentralEdges(bs), FlatRels(bs, None);
    var rel := (central' + tree)[k];
    if k < |central'| {
      CentralEdgeJoins(bs, k);
      var i :| 0 <= i < |flat| && flat[i].id == central'[k].toId;
      assert rel == central'[k];
      assert ([central] + flat)[0] == central;
      IdBehindCentral(central, flat, i, rel.toId);
    } else {
      var e := k - |central'|;
      TreeEdgeJoins(bs, e);
      var i, j :| 0 <= j < i < |flat| && tree[e].fromId == flat[j].id && tree[e].toId == flat[i].id;
      assert rel == tree[e];
      IdBehindCentral(central, flat, j, rel.fromId);
      IdBehindCentral(central, flat, i, rel.toId);
    }
  }

  /** Every relationship joins two nodes of the map: no edge points outside it. */
  lemma EdgesJoinNodes(data: MindMapData, sourcesUsed: nat, k: nat)
    requires k < |MindMapOf(data, sourcesUsed).relationships|
    ensures var m := MindMapOf(data, sourcesUsed);
            && (exists i :: 0 <= i < |m.nodes| && m.nodes[i].id == m.relationships[k].fromId)
            && (exists i :: 0 <= i < |m.nodes| && m.nodes[i].id == m.relationships[k].toId)
  {
    GraphEdgesJoin(CentralNode(data), BranchesOf(data), k);
  }
}
