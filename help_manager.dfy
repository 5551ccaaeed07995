/**
 * The lazily built help cache of tools/help_manager.py and its three
 * read operations. The three class-level fields of `HelpManager`
 * (`help_tree`, `help_items_index`, `help_index_nodes`) are the fields of
 * one `HelpCache` object shared by every caller.
 */
module HelpManager {
  import opened Wrappers
  import opened Strings
  import opened HelpIndex

  /** Why a query raised instead of returning a result. */
  datatype Failure =
    | LoadFailed                   // `_load_help_tree` raised
    | InvalidCredentials           // a 401/403 page read: `None.get(...)` raises
    | MissingNode(treeId: TreeId)  // `help_index_nodes[node_id]` raised KeyError

  // =====================================================================
  // list_help_categories (tools/help_manager.py:117-130)

  datatype CategorySummary = CategorySummary(category: string, subcategories: seq<string>)
  datatype CategoryListing = CategoryListing(categories: seq<CategorySummary>, info: seq<string>)

  const CategoriesInfo := "A list of subcategories is provided for each category"

  /** One summary per category, in insertion order. */
  function Summaries(tree: HelpTree): seq<CategorySummary> {
    if tree == [] then []
    else [CategorySummary(tree[0].name, SubNames(tree[0].subs))] + Summaries(tree[1..])
  }

  /** The loop of `list_help_categories` (tools/help_manager.py:121-127): one summary appended per category. */
  method CollectSummaries(tree: HelpTree) returns (categories: seq<CategorySummary>)
    ensures categories == Summaries(tree)
  {
    categories := [];
    assert tree[0..] == tree;
    for i := 0 to |tree|
      invariant Summaries(tree) == categories + Summaries(tree[i..])
    {
      var summary := CategorySummary(tree[i].name, SubNames(tree[i].subs));
      SummariesStep(tree, i, categories, summary);
      categories := categories + [summary];
    }
    assert tree[|tree|..] == [];
    assert categories + [] == categories;
  }

  lemma SummariesStep(tree: HelpTree, i: int, categories: seq<CategorySummary>, summary: CategorySummary)
    requires 0 <= i < |tree| && summary == CategorySummary(tree[i].name, SubNames(tree[i].subs))
    ensures categories + Summaries(tree[i..]) == (categories + [summary]) + Summaries(tree[i + 1..])
  {
    assert tree[i..][0] == tree[i] && tree[i..][1..] == tree[i + 1..];
    assert Summaries(tree[i..]) == [summary] + Summaries(tree[i + 1..]);
  }

  /** The summaries list the tree's category names, each with its subcategory names. */
  lemma {:induction false} SummariesNames(tree: HelpTree)
    ensures |Summaries(tree)| == |tree|
    ensures forall i :: 0 <= i < |tree| ==>
      Summaries(tree)[i].category == CategoryNames(tree)[i] &&
      Summaries(tree)[i].subcategories == SubNames(tree[i].subs)
  {
    if tree != [] {
      SummariesNames(tree[1..]);
      assert forall i :: 1 <= i < |tree| ==> tree[i] == tree[1..][i - 1];
    }
  }

  lemma {:induction false} LookupSubIffName(subs: seq<SubBucket>, sub: string)
    ensures LookupSub(subs, sub).Some? <==> sub in SubNames(subs)
  {
    if subs != [] {
      LookupSubIffName(subs[1..], sub);
      assert SubNames(subs) == [subs[0].name] + SubNames(subs[1..]);
    }
  }

  /** Some summary of the listing names category `cat` together with subcategory `sub`. */
  predicate Listed(summaries: seq<CategorySummary>, cat: string, sub: string) {
    exists i :: 0 <= i < |summaries| && summaries[i].category == cat && sub in summaries[i].subcategories
  }

  /**
   * In a well-formed tree a bucket exists exactly when the listing names
   * its category together with its subcategory.
   */
  lemma {:induction false} SummariesCoverLookup(tree: HelpTree, cat: string, sub: string)
    requires WellFormedTree(tree)
    ensures Lookup(tree, cat, sub).Some? <==> Listed(Summaries(tree), cat, sub)
  {
    if tree != [] {
      var head := CategorySummary(tree[0].name, SubNames(tree[0].subs));
      assert Summaries(tree) == [head] + Summaries(tree[1..]);
      ListedCons(head, Summaries(tree[1..]), cat, sub);
      LookupSubIffName(tree[0].subs, sub);
      if tree[0].name == cat {
        UnnamedCategoryNotListed(tree[1..], cat, sub);
      } else {
        SummariesCoverLookup(tree[1..], cat, sub);
      }
    }
  }

  lemma ListedCons(head: CategorySummary, rest: seq<CategorySummary>, cat: string, sub: string)
    ensures Listed([head] + rest, cat, sub) <==>
      (head.category == cat && sub in head.subcategories) || Listed(rest, cat, sub)
  {
    var s := [head] + rest;
    assert s[0] == head;
    if Listed(rest, cat, sub) {
      var i :| 0 <= i < |rest| && rest[i].category == cat && sub in rest[i].subcategories;
      assert s[i + 1] == rest[i];
    }
    if Listed(s, cat, sub) {
      var i :| 0 <= i < |s| && s[i].category == cat && sub in s[i].subcategories;
      if i > 0 {
        assert rest[i - 1] == s[i];
      }
    }
  }

  /** A category the tree does not hold is not in its listing. */
  lemma UnnamedCategoryNotListed(tree: HelpTree, cat: string, sub: string)
    requires cat !in CategoryNames(tree)
    ensures !Listed(Summaries(tree), cat, sub)
  {
    SummariesNames(tree);
  }

  // =====================================================================
  // list_help_category_content (tools/help_manager.py:132-146)

  /** A requested bucket's items, or the warning that replaces them. */
  datatype ContentEntry = Items(items: seq<HelpItem>) | NotFound(warning: seq<string>)

  /** An empty subcategory id means "self". */
  function NormalizeSub(sub: string): (r: string)
    ensures r != ""
    ensures sub != "" ==> r == sub
  {
    if sub == "" then SelfSubcategory else sub
  }

  function NotFoundMessage(cat: string, sub: string): string {
    "Category '" + cat + "' and subcategory '" + sub + "' not found."
  }

  /** The entry for one requested subcategory (already normalised). */
  function ContentEntryOf(tree: HelpTree, cat: string, sub: string): ContentEntry {
    match Lookup(tree, cat, sub)
    case Some(items) => Items(items)
    case None => NotFound([NotFoundMessage(cat, sub)])
  }

  /** The loop of `list_help_category_content` (tools/help_manager.py:137-145). */
  method CollectContent(tree: HelpTree, categoryId: string, subcategoryIds: seq<string>) returns (results: seq<ContentEntry>)
    ensures |results| == |subcategoryIds|
    ensures forall i :: 0 <= i < |subcategoryIds| ==> results[i] == ContentEntryOf(tree, categoryId, NormalizeSub(subcategoryIds[i]))
  {
    results := [];
    for i := 0 to |subcategoryIds|
      invariant |results| == i
      invariant forall k :: 0 <= k < i ==> results[k] == ContentEntryOf(tree, categoryId, NormalizeSub(subcategoryIds[k]))
    {
      var sub := subcategoryIds[i];
      if sub == "" {
        sub := SelfSubcategory;
      }
      var entry: ContentEntry;
      match Lookup(tree, categoryId, sub) {
        case Some(items) => entry := Items(items);
        case None => entry := NotFound([NotFoundMessage(categoryId, sub)]);
      }
      results := results + [entry];
    }
  }

  // =====================================================================
  // read_help_info (tools/help_manager.py:148-193)

  /** What the page GET gave: formatted fields, an HTTP status error, or 401/403. */
  datatype PageFetch = Page(fields: map<string, string>) | StatusError(text: string) | Unauthorized

  datatype HelpResult = Content(fields: map<string, string>) | ErrorText(text: string)

  /** One `help_object`; `subNodes` is `None` when the key is not set. */
  datatype HelpObject = HelpObject(helpId: string, subNodes: Option<seq<NodeInfo>>, helpResult: HelpResult)

  datatype HelpInfo = HelpInfo(categoryId: string, subcategoryId: string, results: seq<HelpObject>)

  /** The trailing text that marks a table-of-contents page. */
  const TocMarker := "In this section:"

  /** `{base}{category}/[{subcategory}/]{help_id}.htm`, with no subcategory segment for "self". */
  function HelpUrl(base: string, cat: string, sub: string, id: string): string {
    base + cat + "/" + (if sub != SelfSubcategory then sub + "/" else "") + id + ".htm"
  }

  /**
   * For an item placed from a path with a slash, the page URL is the base
   * followed by the original path and ".htm", unless the path's own
   * second segment is the literal "self".
   */
  lemma HelpUrlRebuildsPath(base: string, helpId: string)
    requires '/' in helpId
    requires SplitBucket(helpId).subcategory == SelfSubcategory ==> |Split(helpId, '/')| <= 2
    ensures var b := SplitBucket(helpId);
      HelpUrl(base, b.category, b.subcategory, b.newId) == base + helpId + ".htm"
  {
    var b := SplitBucket(helpId);
    SplitBucketRebuilds(helpId);
    HelpUrlOfParts(base, b.category, b.subcategory, b.newId);
  }

  /**
   * A path whose second of three segments is "self" is filed, keyed and read
   * as the two-segment path without it: the URL drops the "self" segment.
   */
  lemma SelfSegmentAliasesShortPath(base: string, cat: string, rest: string)
    requires '/' !in cat && '/' !in rest
    ensures SplitBucket(cat + "/" + SelfSubcategory + "/" + rest) == SplitBucket(cat + "/" + rest)
    ensures var b := SplitBucket(cat + "/" + SelfSubcategory + "/" + rest);
      b == Bucket(cat, SelfSubcategory, rest) &&
      HelpUrl(base, b.category, b.subcategory, b.newId) == base + (cat + "/" + rest) + ".htm"
  {
    SplitBucketOfPath(cat, SelfSubcategory, rest);
    SplitBucketOfShortPath(cat, rest);
    HelpUrlOfParts(base, cat, SelfSubcategory, rest);
  }

  /** A one-segment path is filed with new id "" and read from `category/.htm`. */
  lemma OneSegmentPathUrl(base: string, cat: string)
    requires '/' !in cat
    ensures var b := SplitBucket(cat);
      b == Bucket(cat, SelfSubcategory, "") &&
      HelpUrl(base, b.category, b.subcategory, b.newId) == base + (cat + "/") + ".htm"
  {
    SplitNoSep(cat, '/');
    assert Split(cat, '/')[1..] == [];
    HelpUrlOfParts(base, cat, SelfSubcategory, "");
  }

  /** The URL is the base, the path the parts make, and ".htm". */
  lemma HelpUrlOfParts(base: string, cat: string, sub: string, id: string)
    ensures sub != SelfSubcategory ==> HelpUrl(base, cat, sub, id) == base + (cat + "/" + sub + "/" + id) + ".htm"
    ensures sub == SelfSubcategory ==> HelpUrl(base, cat, sub, id) == base + (cat + "/" + id) + ".htm"
  {
  }

  /** `result.result.get("help_content", "")`. */
  function HelpContent(fields: map<string, string>): string {
    if "help_content" in fields then fields["help_content"] else ""
  }

  /** The node-index entries of those sub nodes the node index holds, in order. */
  function Expand(nodes: map<TreeId, NodeInfo>, subNodes: seq<TreeId>): seq<NodeInfo> {
    if subNodes == [] then []
    else (if subNodes[0] in nodes then [nodes[subNodes[0]]] else []) + Expand(nodes, subNodes[1..])
  }

  /** Expansion keeps exactly the present sub nodes, and all of them when all are present. */
  lemma {:induction false} ExpandMembers(nodes: map<TreeId, NodeInfo>, subNodes: seq<TreeId>)
    ensures |Expand(nodes, subNodes)| <= |subNodes|
    ensures forall x :: x in Expand(nodes, subNodes) <==>
      exists j :: 0 <= j < |subNodes| && subNodes[j] in nodes && nodes[subNodes[j]] == x
    ensures (forall j :: 0 <= j < |subNodes| ==> subNodes[j] in nodes) ==>
      |Expand(nodes, subNodes)| == |subNodes| &&
      forall j :: 0 <= j < |subNodes| ==> Expand(nodes, subNodes)[j] == nodes[subNodes[j]]
  {
    if subNodes != [] {
      ExpandMembers(nodes, subNodes[1..]);
      assert forall j :: 1 <= j < |subNodes| ==> subNodes[j] == subNodes[1..][j - 1];
      forall x | x in Expand(nodes, subNodes)
        ensures exists j :: 0 <= j < |subNodes| && subNodes[j] in nodes && nodes[subNodes[j]] == x
      {
        if x !in Expand(nodes, subNodes[1..]) {
          assert subNodes[0] in nodes && nodes[subNodes[0]] == x;
        } else {
          var j :| 0 <= j < |subNodes[1..]| && subNodes[1..][j] in nodes && nodes[subNodes[1..][j]] == x;
          assert subNodes[j + 1] == subNodes[1..][j];
        }
      }
    }
  }

  /** The loop of tools/help_manager.py:176-178. */
  method ExpandSubNodes(nodes: map<TreeId, NodeInfo>, subNodes: seq<TreeId>) returns (r: seq<NodeInfo>)
    ensures r == Expand(nodes, subNodes)
  {
    r := [];
    assert subNodes[0..] == subNodes;
    for i := 0 to |subNodes|
      invariant Expand(nodes, subNodes) == r + Expand(nodes, subNodes[i..])
    {
      var kept := if subNodes[i] in nodes then [nodes[subNodes[i]]] else [];
      ExpandStep(nodes, subNodes, i, r, kept);
      r := r + kept;
    }
    assert subNodes[|subNodes|..] == [];
    assert r + [] == r;
  }

  lemma ExpandStep(nodes: map<TreeId, NodeInfo>, subNodes: seq<TreeId>, i: int, r: seq<NodeInfo>, kept: seq<NodeInfo>)
    requires 0 <= i < |subNodes|
    requires kept == if subNodes[i] in nodes then [nodes[subNodes[i]]] else []
    ensures r + Expand(nodes, subNodes[i..]) == (r + kept) + Expand(nodes, subNodes[i + 1..])
  {
    assert subNodes[i..][0] == subNodes[i] && subNodes[i..][1..] == subNodes[i + 1..];
    assert Expand(nodes, subNodes[i..]) == kept + Expand(nodes, subNodes[i + 1..]);
  }

  /** `sub_nodes` for index key `key`: `[]` when the key is absent, KeyError when its node is. */
  function SubNodesOf(items: map<string, TreeId>, nodes: map<TreeId, NodeInfo>, key: string): Result<seq<NodeInfo>, Failure> {
    if key !in items then Ok([])
    else if items[key] !in nodes then Fail(MissingNode(items[key]))
    else Ok(Expand(nodes, nodes[items[key]].subNodes))
  }

  /** One iteration of the loop at tools/help_manager.py:154-185, given the page GET's outcome. */
  function HelpObjectOf(items: map<string, TreeId>, nodes: map<TreeId, NodeInfo>, cat: string, sub: string, id: string, fetch: PageFetch): Result<HelpObject, Failure> {
    match fetch
    case Unauthorized => Fail(InvalidCredentials)
    case StatusError(text) => Ok(HelpObject(id, None, ErrorText("Error:" + text)))
    case Page(fields) =>
      if EndsWith(HelpContent(fields), TocMarker) then
        match SubNodesOf(items, nodes, ItemKey(Bucket(cat, sub, id)))
        case Fail(e) => Fail(e)
        case Ok(sn) => Ok(HelpObject(id, Some(sn), Content(fields)))
      else Ok(HelpObject(id, None, Content(fields)))
  }

  /**
   * One help object: it carries its help id; `sub_nodes` is set exactly on
   * a table-of-contents page; a status error becomes "Error:" and the text.
   */
  lemma HelpObjectShape(items: map<string, TreeId>, nodes: map<TreeId, NodeInfo>, cat: string, sub: string, id: string, fetch: PageFetch)
    ensures var o := HelpObjectOf(items, nodes, cat, sub, id, fetch);
      (o.Fail? <==> (fetch.Unauthorized? ||
        (fetch.Page? && EndsWith(HelpContent(fetch.fields), TocMarker) &&
         ItemKey(Bucket(cat, sub, id)) in items && items[ItemKey(Bucket(cat, sub, id))] !in nodes))) &&
      (o.Ok? ==> (o.value.helpId == id &&
        (o.value.subNodes.Some? <==> fetch.Page? && EndsWith(HelpContent(fetch.fields), TocMarker)) &&
        (fetch.StatusError? ==> o.value.helpResult == ErrorText("Error:" + fetch.text)) &&
        (fetch.Page? ==> o.value.helpResult == Content(fetch.fields))))
  {
  }

  /** A table-of-contents page whose key the items index lacks gets an empty `sub_nodes`. */
  lemma HelpObjectUnindexedToc(items: map<string, TreeId>, nodes: map<TreeId, NodeInfo>, cat: string, sub: string, id: string, fields: map<string, string>)
    requires EndsWith(HelpContent(fields), TocMarker)
    requires ItemKey(Bucket(cat, sub, id)) !in items
    ensures HelpObjectOf(items, nodes, cat, sub, id, Page(fields)) == Ok(HelpObject(id, Some([]), Content(fields)))
  {
  }

  /** The body of the loop at tools/help_manager.py:154-185 for one help id. */
  method ReadOne(items: map<string, TreeId>, nodes: map<TreeId, NodeInfo>, base: string, fetchPage: string -> PageFetch,
                 cat: string, sub: string, id: string) returns (r: Result<HelpObject, Failure>)
    ensures r == HelpObjectOf(items, nodes, cat, sub, id, fetchPage(HelpUrl(base, cat, sub, id)))
  {
    var url := base + cat + "/";
    if sub != SelfSubcategory {
      url := url + sub + "/";
    }
    url := url + id + ".htm";
    assert url == HelpUrl(base, cat, sub, id);
    match fetchPage(url) {
      case Unauthorized =>
        r := Fail(InvalidCredentials);
      case StatusError(text) =>
        r := Ok(HelpObject(id, None, ErrorText("Error:" + text)));
      case Page(fields) =>
        if EndsWith(HelpContent(fields), TocMarker) {
          var indexId := cat + ":" + sub + ":" + id;
          assert indexId == ItemKey(Bucket(cat, sub, id));
          var subNodes: seq<NodeInfo> := [];
          if indexId in items {
            var nodeId := items[indexId];
            if nodeId !in nodes {
              return Fail(MissingNode(nodeId));
            }
            subNodes := ExpandSubNodes(nodes, nodes[nodeId].subNodes);
          }
          r := Ok(HelpObject(id, Some(subNodes), Content(fields)));
        } else {
          r := Ok(HelpObject(id, None, Content(fields)));
        }
    }
  }

  /** The objects for `ids` in order; the first raising iteration aborts the whole call. */
  function ReadObjects(items: map<string, TreeId>, nodes: map<TreeId, NodeInfo>, base: string, fetchPage: string -> PageFetch,
                       cat: string, sub: string, ids: seq<string>): Result<seq<HelpObject>, Failure>
  {
    if ids == [] then Ok([])
    else
      match HelpObjectOf(items, nodes, cat, sub, ids[0], fetchPage(HelpUrl(base, cat, sub, ids[0])))
      case Fail(e) => Fail(e)
      case Ok(o) => PrependOk([o], ReadObjects(items, nodes, base, fetchPage, cat, sub, ids[1..]))
  }

  /** The call succeeds exactly when every iteration does, with one object per id, in order. */
  lemma {:induction false} ReadObjectsOk(items: map<string, TreeId>, nodes: map<TreeId, NodeInfo>, base: string, fetchPage: string -> PageFetch,
                                         cat: string, sub: string, ids: seq<string>)
    ensures var r := ReadObjects(items, nodes, base, fetchPage, cat, sub, ids);
      (r.Ok? <==> forall j :: 0 <= j < |ids| ==> HelpObjectOf(items, nodes, cat, sub, ids[j], fetchPage(HelpUrl(base, cat, sub, ids[j]))).Ok?) &&
      (r.Ok? ==> (|r.value| == |ids| &&
        forall j :: 0 <= j < |ids| ==> r.value[j] == HelpObjectOf(items, nodes, cat, sub, ids[j], fetchPage(HelpUrl(base, cat, sub, ids[j]))).value))
  {
    if ids != [] {
      ReadObjectsOk(items, nodes, base, fetchPage, cat, sub, ids[1..]);
      assert forall j :: 1 <= j < |ids| ==> ids[j] == ids[1..][j - 1];
    }
  }

  /** The whole `read_help_info` result once the cache is populated. */
  function ReadSpec(items: map<string, TreeId>, nodes: map<TreeId, NodeInfo>, base: string, fetchPage: string -> PageFetch,
                    cat: string, sub: string, ids: seq<string>): Result<HelpInfo, Failure>
  {
    var s := NormalizeSub(sub);
    match ReadObjects(items, nodes, base, fetchPage, cat, s, ids)
    case Fail(e) => Fail(e)
    case Ok(objs) => Ok(HelpInfo(cat, s, objs))
  }

  /**
   * When every items-index entry points into the node index, a read never
   * hits a missing node: it fails only on a 401/403 page.
   */
  lemma {:induction false} ReadClosedFailsOnlyOnCredentials(items: map<string, TreeId>, nodes: map<TreeId, NodeInfo>, base: string,
                                                            fetchPage: string -> PageFetch, cat: string, sub: string, ids: seq<string>)
    requires IndexClosed(items, nodes)
    ensures ReadSpec(items, nodes, base, fetchPage, cat, sub, ids).Ok? <==>
      forall j :: 0 <= j < |ids| ==> !fetchPage(HelpUrl(base, cat, NormalizeSub(sub), ids[j])).Unauthorized?
  {
    var s := NormalizeSub(sub);
    ReadObjectsOk(items, nodes, base, fetchPage, cat, s, ids);
    forall j | 0 <= j < |ids|
      ensures HelpObjectOf(items, nodes, cat, s, ids[j], fetchPage(HelpUrl(base, cat, s, ids[j]))).Ok? <==>
        !fetchPage(HelpUrl(base, cat, s, ids[j])).Unauthorized?
    {
      HelpObjectShape(items, nodes, cat, s, ids[j], fetchPage(HelpUrl(base, cat, s, ids[j])));
    }
  }

  // =====================================================================
  // What a completed load leaves behind

  /** A completed load from a closed index state leaves it closed. */
  lemma LoadKeepsIndexClosed(src: HelpSources, items: map<string, TreeId>, nodes: map<TreeId, NodeInfo>)
    requires IndexClosed(items, nodes)
    requires LoadSpec(src, items, nodes).1
    ensures IndexClosed(LoadSpec(src, items, nodes).0.items, LoadSpec(src, items, nodes).0.nodes)
  {
    var flat := FlattenSpec(src.index.tree).value;
    var merged := Merge(FetchedChunks(src)).value;
    RunKeepsIndexClosed(BuildState([], items, nodes), flat, merged);
  }

  /** A completed load builds a well-formed two-level tree. */
  lemma LoadedTreeWellFormed(src: HelpSources, items: map<string, TreeId>, nodes: map<TreeId, NodeInfo>)
    requires LoadSpec(src, items, nodes).1
    ensures WellFormedTree(LoadSpec(src, items, nodes).0.tree)
  {
    var flat := FlattenSpec(src.index.tree).value;
    var merged := Merge(FetchedChunks(src)).value;
    RunWellFormed(BuildState([], items, nodes), flat, merged);
  }

  /**
   * After a completed load, a requested bucket lists exactly the merged
   * items filed under it, in order, and is reported missing exactly when
   * there are none.
   */
  lemma LoadedContent(src: HelpSources, items: map<string, TreeId>, nodes: map<TreeId, NodeInfo>, cat: string, sub: string)
    requires LoadSpec(src, items, nodes).1
    ensures Merge(FetchedChunks(src)).Some?
    ensures var filed := ItemsIn(Merge(FetchedChunks(src)).value, cat, sub);
      ContentEntryOf(LoadSpec(src, items, nodes).0.tree, cat, sub) ==
        if filed == [] then NotFound([NotFoundMessage(cat, sub)]) else Items(filed)
  {
    var flat := FlattenSpec(src.index.tree).value;
    var merged := Merge(FetchedChunks(src)).value;
    RunTree(BuildState([], items, nodes), flat, merged, cat, sub);
    assert [] + ItemsIn(merged, cat, sub) == ItemsIn(merged, cat, sub);
  }

  /** Every item a bucket lists comes from a merged item that is not excluded. */
  lemma {:induction false} ItemsInFromMerged(items: seq<HelpItem>, cat: string, sub: string)
    ensures forall x :: x in ItemsIn(items, cat, sub) ==>
      exists it :: it in items && x == Placed(it) && SplitBucket(it.helpId).category == cat && SplitBucket(it.helpId).subcategory == sub
  {
    if items != [] {
      ItemsInFromMerged(items[1..], cat, sub);
    }
  }

  /** No listed item derives from a sentinel or release-notes page. */
  lemma LoadedContentNotExcluded(src: HelpSources, items: map<string, TreeId>, nodes: map<TreeId, NodeInfo>, cat: string, sub: string)
    requires LoadSpec(src, items, nodes).1
    ensures Merge(FetchedChunks(src)).Some?
    ensures var e := ContentEntryOf(LoadSpec(src, items, nodes).0.tree, cat, sub);
      e.Items? ==> forall x :: x in e.items ==>
        exists it :: it in Merge(FetchedChunks(src)).value && x == Placed(it) && !Excluded(it.helpId)
  {
    LoadedContent(src, items, nodes, cat, sub);
    MergeExcludes(FetchedChunks(src));
    ItemsInFromMerged(Merge(FetchedChunks(src)).value, cat, sub);
  }

  // =====================================================================
  // Worked example

  /**
   * Two records with the same path `cat/sub/rest` and different tree ids
   * t1 then t2: the bucket keeps both items; the items index ends with t2
   * (last writer); the node index gains an entry for each tree id.
   */
  lemma {:induction false} DuplicatePathScenario(flat: FlatTable, cat: string, sub: string, rest: string, t1: TreeId, t2: TreeId, title1: string, title2: string)
    requires '/' !in cat && '/' !in sub && t1 != t2
    requires Some(t1) in flat && Some(t2) in flat
    ensures var path := cat + "/" + sub + "/" + rest;
      var i1, i2 := HelpItem(title1, path, t1), HelpItem(title2, path, t2);
      var r := Run(BuildState([], map[], map[]), flat, [i1, i2]);
      var key := ItemKey(Bucket(cat, sub, rest));
      r.1 &&
      Lookup(r.0.tree, cat, sub) == Some([HelpItem(title1, rest, t1), HelpItem(title2, rest, t2)]) &&
      key in r.0.items && r.0.items[key] == t2 &&
      t1 in r.0.nodes && r.0.nodes[t1] == NodeInfo(cat, sub, rest, flat[Some(t1)].childIds) &&
      t2 in r.0.nodes && r.0.nodes[t2] == NodeInfo(cat, sub, rest, flat[Some(t2)].childIds)
  {
    var path := cat + "/" + sub + "/" + rest;
    var i1, i2 := HelpItem(title1, path, t1), HelpItem(title2, path, t2);
    var items := [i1, i2];
    var st := BuildState([], map[], map[]);
    SplitBucketOfPath(cat, sub, rest);
    assert items[1..] == [i2] && items[1..][1..] == [];
    RunOkIff(st, flat, items);
    RunTree(st, flat, items, cat, sub);
    assert Placed(i1) == HelpItem(title1, rest, t1) && Placed(i2) == HelpItem(title2, rest, t2);
    assert ItemsIn(items[1..][1..], cat, sub) == [];
    assert ItemsIn(items[1..], cat, sub) == [Placed(i2)] + [];
    assert ItemsIn(items, cat, sub) == [Placed(i1)] + [Placed(i2)];
    assert Lookup(st.tree, cat, sub) == None;
    assert [] + ItemsIn(items, cat, sub) == ItemsIn(items, cat, sub);
    RunItemsIndexLast(st, flat, items, 1);
    RunNodeIndexFirst(st, flat, items, 0);
    RunNodeIndexFirst(st, flat, items, 1);
    var r := Run(st, flat, items);
    var key := ItemKey(Bucket(cat, sub, rest));
    assert r.1;
    assert Lookup(r.0.tree, cat, sub) == Some(ItemsIn(items, cat, sub));
    assert [Placed(i1)] + [Placed(i2)] == [HelpItem(title1, rest, t1), HelpItem(title2, rest, t2)];
    assert Lookup(r.0.tree, cat, sub) == Some([HelpItem(title1, rest, t1), HelpItem(title2, rest, t2)]);
    assert key in r.0.items && r.0.items[key] == t2;
    assert t1 in r.0.nodes && r.0.nodes[t1] == NodeInfo(cat, sub, rest, flat[Some(t1)].childIds);
    assert t2 in r.0.nodes && r.0.nodes[t2] == NodeInfo(cat, sub, rest, flat[Some(t2)].childIds);
  }

  /** Only the whole id "___" is a sentinel: "home/___" is filed as page "___" in "home"/"self". */
  lemma SentinelOnlyWholeId()
    ensures !Excluded("home/___")
    ensures SplitBucket("home/___") == Bucket("home", "self", "___")
  {
    var cat, page := "home", "___";
    assert '/' !in cat by {
      assert cat == ['h', 'o', 'm', 'e'];
    }
    assert '/' !in page by {
      assert page == ['_', '_', '_'];
    }
    assert cat + "/" + page == "home/___";
    SplitBucketOfShortPath(cat, page);
    assert |"home/___"| < |"release-notes/"|;
  }

  /**
   * Two different paths `cat/sub/x` and `cat/sub/y` that share one tree
   * id: the second path's items-index key resolves to a node-index entry
   * that names the first path's page.
   */
  lemma {:induction false} SharedTreeIdScenario(flat: FlatTable, cat: string, sub: string, x: string, y: string, t: TreeId)
    requires '/' !in cat && '/' !in sub && x != y
    requires Some(t) in flat
    ensures var i1, i2 := HelpItem("", cat + "/" + sub + "/" + x, t), HelpItem("", cat + "/" + sub + "/" + y, t);
      var r := Run(BuildState([], map[], map[]), flat, [i1, i2]);
      var key := ItemKey(Bucket(cat, sub, y));
      r.1 && key in r.0.items && r.0.items[key] == t && t in r.0.nodes && r.0.nodes[t].helpId == x
  {
    var i1, i2 := HelpItem("", cat + "/" + sub + "/" + x, t), HelpItem("", cat + "/" + sub + "/" + y, t);
    var items := [i1, i2];
    var st := BuildState([], map[], map[]);
    SplitBucketOfPath(cat, sub, x);
    SplitBucketOfPath(cat, sub, y);
    assert items[1..] == [i2] && items[1..][1..] == [];
    RunOkIff(st, flat, items);
    RunItemsIndexLast(st, flat, items, 1);
    RunNodeIndexFirst(st, flat, items, 0);
  }

  // =====================================================================
  // The shared cache

  /**
   * The chunk stage of `_load_help_tree` (tools/help_manager.py:60-85): fetch
   * every chunk URL in order and concatenate their items; a chunk that cannot
   * be read fails the whole stage.
   */
  method FetchMerged(src: HelpSources) returns (merged: Option<seq<HelpItem>>)
    ensures merged == Merge(FetchedChunks(src))
  {
    var urls := ChunkUrls(src.tocUrl, ChunkPrefix(src), NumChunks(src));
    ghost var chunks := FetchedChunks(src);
    var acc: seq<HelpItem> := [];
    assert chunks[0..] == chunks;
    PrependSomeNil(Merge(chunks));
    for i := 0 to |urls|
      invariant Merge(chunks) == PrependSome(acc, Merge(chunks[i..]))
    {
      assert chunks[i..][0] == chunks[i] == src.fetchChunk(urls[i]);
      assert chunks[i..][1..] == chunks[i + 1..];
      var content := ChunkItemsOf(src.fetchChunk(urls[i]));
      if content.None? {
        assert Merge(chunks[i..]) == None;
        return None;
      }
      PrependSomeAssoc(acc, content.value, Merge(chunks[i + 1..]));
      acc := acc + content.value;
    }
    assert chunks[|urls|..] == [];
    assert acc + [] == acc;
    merged := Some(acc);
  }

  class HelpCache {
    var helpTree: Option<HelpTree>
    var itemsIndex: map<string, TreeId>
    var indexNodes: map<TreeId, NodeInfo>

    /** All three start empty (tools/help_manager.py:23-25). */
    constructor()
      ensures helpTree == None && itemsIndex == map[] && indexNodes == map[]
    {
      helpTree := None;
      itemsIndex := map[];
      indexNodes := map[];
    }

    /**
     * `_load_help_tree` (tools/help_manager.py:30-115). The indices are
     * written during the build loop; `help_tree` is set only once the loop
     * has finished, so a failed load leaves it as it was.
     */
    method Load(src: HelpSources) returns (ok: bool)
      modifies this
      ensures var (st, done) := LoadSpec(src, old(itemsIndex), old(indexNodes));
        ok == done && itemsIndex == st.items && indexNodes == st.nodes &&
        helpTree == (if done then Some(st.tree) else old(helpTree))
    {
      var flat := Flatten(src.index.tree);
      if flat.None? {
        return false;
      }
      var fetched := FetchMerged(src);
      if fetched.None? {
        return false;
      }
      var merged := fetched.value;

      var tree: HelpTree := [];
      ghost var start := BuildState([], itemsIndex, indexNodes);
      assert merged[0..] == merged;
      for i := 0 to |merged|
        invariant Run(start, flat.value, merged) == Run(BuildState(tree, itemsIndex, indexNodes), flat.value, merged[i..])
        invariant helpTree == old(helpTree)
      {
        RunAt(BuildState(tree, itemsIndex, indexNodes), flat.value, merged, i);
        var item := merged[i];
        var b := SplitBucket(item.helpId);
        tree := Insert(tree, b.category, b.subcategory, Placed(item));
        itemsIndex := itemsIndex[ItemKey(b) := item.treeId];
        if item.treeId !in indexNodes {
          if Some(item.treeId) !in flat.value {
            return false;
          }
          indexNodes := indexNodes[item.treeId := NodeInfoOf(item, flat.value)];
        }
      }
      assert merged[|merged|..] == [];
      helpTree := Some(tree);
      ok := true;
    }

    /** The loader is called only while `help_tree` is still `None`. */
    twostate predicate LoadedLazily(src: HelpSources)
      reads this
    {
      if old(helpTree).Some? then
        helpTree == old(helpTree) && itemsIndex == old(itemsIndex) && indexNodes == old(indexNodes)
      else
        var (st, done) := LoadSpec(src, old(itemsIndex), old(indexNodes));
        itemsIndex == st.items && indexNodes == st.nodes && helpTree == (if done then Some(st.tree) else None)
    }

    method EnsureLoaded(src: HelpSources) returns (ok: bool)
      modifies this
      ensures LoadedLazily(src)
      ensures ok <==> helpTree.Some?
    {
      if helpTree.None? {
        ok := Load(src);
      } else {
        ok := true;
      }
    }

    /** `list_help_categories`. */
    method ListHelpCategories(src: HelpSources) returns (r: Result<CategoryListing, Failure>)
      modifies this
      ensures LoadedLazily(src)
      ensures helpTree.None? ==> r == Fail(LoadFailed)
      ensures helpTree.Some? ==> r == Ok(CategoryListing(Summaries(helpTree.value), [CategoriesInfo]))
    {
      var ok := EnsureLoaded(src);
      if !ok {
        return Fail(LoadFailed);
      }
      var categories := CollectSummaries(helpTree.value);
      r := Ok(CategoryListing(categories, [CategoriesInfo]));
    }

    /** `list_help_category_content`: one entry per requested subcategory, in order. */
    method ListHelpCategoryContent(src: HelpSources, categoryId: string, subcategoryIds: seq<string>)
      returns (r: Result<seq<ContentEntry>, Failure>)
      modifies this
      ensures LoadedLazily(src)
      ensures helpTree.None? ==> r == Fail(LoadFailed)
      ensures helpTree.Some? ==> (r.Ok? && |r.value| == |subcategoryIds| &&
        forall i :: 0 <= i < |subcategoryIds| ==>
          r.value[i] == ContentEntryOf(helpTree.value, categoryId, NormalizeSub(subcategoryIds[i])))
    {
      var ok := EnsureLoaded(src);
      if !ok {
        return Fail(LoadFailed);
      }
      var results := CollectContent(helpTree.value, categoryId, subcategoryIds);
      r := Ok(results);
    }

    /**
     * `read_help_info` (tools/help_manager.py:148-193); `fetchPage` gives
     * the outcome of the GET of each page URL.
     */
    method ReadHelpInfo(src: HelpSources, fetchPage: string -> PageFetch, categoryId: string, subcategoryId: string, helpIds: seq<string>)
      returns (r: Result<HelpInfo, Failure>)
      modifies this
      ensures LoadedLazily(src)
      ensures helpTree.None? ==> r == Fail(LoadFailed)
      ensures helpTree.Some? ==> r == ReadSpec(itemsIndex, indexNodes, src.contentUrl, fetchPage, categoryId, subcategoryId, helpIds)
    {
      var ok := EnsureLoaded(src);
      if !ok {
        return Fail(LoadFailed);
      }
      var sub := subcategoryId;
      if sub == "" {
        sub := SelfSubcategory;
      }
      ghost var tree0, items0, nodes0 := helpTree, itemsIndex, indexNodes;
      ghost var spec := ReadObjects(itemsIndex, indexNodes, src.contentUrl, fetchPage, categoryId, sub, helpIds);
      var results: seq<HelpObject> := [];
      assert helpIds[0..] == helpIds;
      PrependOkNil(spec);
      for i := 0 to |helpIds|
        invariant spec == PrependOk(results, ReadObjects(itemsIndex, indexNodes, src.contentUrl, fetchPage, categoryId, sub, helpIds[i..]))
        invariant helpTree == tree0 && itemsIndex == items0 && indexNodes == nodes0
      {
        assert helpIds[i..][0] == helpIds[i] && helpIds[i..][1..] == helpIds[i + 1..];
        var obj := ReadOne(itemsIndex, indexNodes, src.contentUrl, fetchPage, categoryId, sub, helpIds[i]);
        if obj.Fail? {
          return Fail(obj.error);
        }
        var rest := ReadObjects(itemsIndex, indexNodes, src.contentUrl, fetchPage, categoryId, sub, helpIds[i + 1..]);
        PrependOkAssoc(results, [obj.value], rest);
        results := results + [obj.value];
      }
      assert helpIds[|helpIds|..] == [];
      assert results + [] == results;
      r := Ok(HelpInfo(categoryId, sub, results));
    }
  }
}
