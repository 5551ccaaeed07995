/**
 * The help-index builder of `HelpManager._load_help_tree`, as values:
 * flattening the documentation index tree into an id-keyed table,
 * turning chunk records into help items, splitting help paths into
 * (category, subcategory, id) buckets, and the step-by-step build of the
 * two-level help tree and the two cross indices.
 */
module HelpIndex {
  import opened Wrappers
  import opened Strings

  type TreeId = string

  // =====================================================================
  // The index tree and its flat table

  /**
   * One node of the parsed index tree: its scalar fields (among them the
   * id "i" and "c") and the ordered list held under "n" (absent = []).
   */
  datatype IndexNode = IndexNode(attrs: map<string, string>, children: seq<IndexNode>)

  /** The parsed root index payload; each of its three fields may be absent. */
  datatype IndexPayload = IndexPayload(numChunks: Option<int>, prefix: Option<string>, tree: Option<IndexNode>)

  const DefaultNumChunks := 6
  const DefaultChunkPrefix := "perfecto_help_Chunk"

  /** The key a node is filed under: `node.get("i")`, which is `None` when the field is absent. */
  function NodeKey(n: IndexNode): Option<TreeId> {
    if "i" in n.attrs then Some(n.attrs["i"]) else None
  }

  /** Every child carries an "i" field; otherwise `ch["i"]` raises. */
  predicate ChildrenHaveIds(n: IndexNode) {
    forall c :: c in n.children ==> "i" in c.attrs
  }

  /** A flat-table entry: the node's fields without "n", "c" and "i", and the ids of its children in order. */
  datatype FlatEntry = FlatEntry(meta: map<string, string>, childIds: seq<TreeId>)

  type FlatTable = map<Option<TreeId>, FlatEntry>

  function Entry(n: IndexNode): (e: FlatEntry)
    requires ChildrenHaveIds(n)
    ensures e.meta.Keys == n.attrs.Keys - {"n", "c", "i"}
    ensures forall k :: k in e.meta ==> e.meta[k] == n.attrs[k]
    ensures |e.childIds| == |n.children|
    ensures forall j :: 0 <= j < |n.children| ==> e.childIds[j] == n.children[j].attrs["i"]
  {
    FlatEntry(n.attrs - {"n", "c", "i"},
              seq(|n.children|, j requires 0 <= j < |n.children| => n.children[j].attrs["i"]))
  }

  /** The nodes the traversal starts from: the root's "n" list. */
  function RootChildren(tree: Option<IndexNode>): seq<IndexNode> {
    match tree
    case None => []
    case Some(root) => root.children
  }

  function Size(n: IndexNode): nat {
    1 + SizeAll(n.children)
  }

  function SizeAll(s: seq<IndexNode>): nat {
    if s == [] then 0 else Size(s[0]) + SizeAll(s[1..])
  }

  lemma {:induction false} SizeAllAppend(a: seq<IndexNode>, b: seq<IndexNode>)
    ensures SizeAll(a + b) == SizeAll(a) + SizeAll(b)
  {
    if a != [] {
      assert (a + b)[0] == a[0];
      assert (a + b)[1..] == a[1..] + b;
      SizeAllAppend(a[1..], b);
    } else {
      assert a + b == b;
    }
  }

  /**
   * The order in which the work-list loop visits nodes: it pops the last
   * element of the stack and pushes that node's children in order.
   */
  function VisitOrder(stack: seq<IndexNode>): seq<IndexNode>
    decreases SizeAll(stack)
  {
    if stack == [] then []
    else
      var n := stack[|stack| - 1];
      var rest := stack[..|stack| - 1];
      assert stack == rest + [n];
      SizeAllAppend(rest, [n]);
      SizeAllAppend(rest, n.children);
      assert SizeAll([n]) == Size(n);
      [n] + VisitOrder(rest + n.children)
  }

  /** Every node of a forest, each root before its descendants. */
  function AllNodes(s: seq<IndexNode>): seq<IndexNode>
    decreases SizeAll(s)
  {
    if s == [] then []
    else
      assert SizeAll(s) == 1 + SizeAll(s[0].children) + SizeAll(s[1..]);
      [s[0]] + AllNodes(s[0].children) + AllNodes(s[1..])
  }

  lemma {:induction false} AllNodesAppend(a: seq<IndexNode>, b: seq<IndexNode>)
    ensures AllNodes(a + b) == AllNodes(a) + AllNodes(b)
    decreases SizeAll(a)
  {
    if a != [] {
      assert (a + b)[0] == a[0];
      assert (a + b)[1..] == a[1..] + b;
      assert SizeAll(a) == Size(a[0]) + SizeAll(a[1..]);
      AllNodesAppend(a[1..], b);
    } else {
      assert a + b == b;
    }
  }

  /** The work-list loop visits exactly the nodes of the forest it starts from. */
  lemma {:induction false} VisitOrderNodes(stack: seq<IndexNode>)
    ensures forall x :: x in VisitOrder(stack) <==> x in AllNodes(stack)
    decreases SizeAll(stack)
  {
    if stack != [] {
      var n := stack[|stack| - 1];
      var rest := stack[..|stack| - 1];
      assert stack == rest + [n];
      SizeAllAppend(rest, [n]);
      SizeAllAppend(rest, n.children);
      assert SizeAll([n]) == Size(n);
      VisitOrderNodes(rest + n.children);
      AllNodesAppend(rest, n.children);
      AllNodesAppend(rest, [n]);
      assert AllNodes([n]) == [n] + AllNodes(n.children) + AllNodes([]);
    }
  }

  /** The flat table after writing an entry for each visited node in turn; `None` when an entry cannot be built. */
  function FlattenSteps(flat: FlatTable, visit: seq<IndexNode>): Option<FlatTable>
    decreases |visit|
  {
    if visit == [] then Some(flat)
    else if !ChildrenHaveIds(visit[0]) then None
    else FlattenSteps(flat[NodeKey(visit[0]) := Entry(visit[0])], visit[1..])
  }

  /** What the flattening at tools/help_manager.py:41-59 computes for a parsed "tree" field. */
  function FlattenSpec(tree: Option<IndexNode>): Option<FlatTable> {
    FlattenSteps(map[], VisitOrder(RootChildren(tree)))
  }

  /** The explicit-stack flattening loop. */
  method Flatten(tree: Option<IndexNode>) returns (r: Option<FlatTable>)
    ensures r == FlattenSpec(tree)
  {
    var flat: FlatTable := map[];
    var stack := RootChildren(tree);
    while stack != []
      invariant FlattenSteps(flat, VisitOrder(stack)) == FlattenSpec(tree)
      decreases SizeAll(stack)
    {
      var node := stack[|stack| - 1];
      var rest := stack[..|stack| - 1];
      assert stack == rest + [node];
      if !ChildrenHaveIds(node) {
        return None;
      }
      flat := flat[NodeKey(node) := Entry(node)];
      SizeAllAppend(rest, [node]);
      SizeAllAppend(rest, node.children);
      assert SizeAll([node]) == Size(node);
      stack := rest + node.children;
    }
    r := Some(flat);
  }

  lemma {:induction false} FlattenStepsFails(flat: FlatTable, visit: seq<IndexNode>)
    ensures FlattenSteps(flat, visit).None? <==> exists x :: x in visit && !ChildrenHaveIds(x)
    decreases |visit|
  {
    if visit != [] {
      if ChildrenHaveIds(visit[0]) {
        FlattenStepsFails(flat[NodeKey(visit[0]) := Entry(visit[0])], visit[1..]);
        assert forall x :: x in visit <==> x == visit[0] || x in visit[1..];
      }
    }
  }

  lemma {:induction false} FlattenStepsKeys(flat: FlatTable, visit: seq<IndexNode>)
    requires FlattenSteps(flat, visit).Some?
    ensures FlattenSteps(flat, visit).value.Keys == flat.Keys + set x | x in visit :: NodeKey(x)
    ensures forall k :: k in flat && (forall x :: x in visit ==> NodeKey(x) != k) ==>
      FlattenSteps(flat, visit).value[k] == flat[k]
    decreases |visit|
  {
    if visit != [] {
      FlattenStepsKeys(flat[NodeKey(visit[0]) := Entry(visit[0])], visit[1..]);
      assert forall x :: x in visit <==> x == visit[0] || x in visit[1..];
    }
  }

  /** No two different nodes of `s` are filed under the same key. */
  predicate UniqueKeys(s: seq<IndexNode>) {
    forall x, y :: x in s && y in s && NodeKey(x) == NodeKey(y) ==> x == y
  }

  lemma {:induction false} FlattenStepsEntries(flat: FlatTable, visit: seq<IndexNode>)
    requires FlattenSteps(flat, visit).Some?
    requires UniqueKeys(visit)
    ensures forall x :: x in visit ==>
      ChildrenHaveIds(x) && NodeKey(x) in FlattenSteps(flat, visit).value && FlattenSteps(flat, visit).value[NodeKey(x)] == Entry(x)
    decreases |visit|
  {
    if visit != [] {
      var h := visit[0];
      var flat' := flat[NodeKey(h) := Entry(h)];
      FlattenStepsEntries(flat', visit[1..]);
      FlattenStepsKeys(flat', visit[1..]);
      if h !in visit[1..] {
        forall x | x in visit[1..] ensures NodeKey(x) != NodeKey(h) {
        }
      }
    }
  }

  /**
   * For a tree whose nodes all have distinct ids, the flat table has one
   * entry per node under the root's "n" (and none for the root itself),
   * holding that node's fields without "n", "c", "i" and its child ids.
   */
  lemma FlattenTreeShaped(tree: Option<IndexNode>)
    requires FlattenSpec(tree).Some?
    requires UniqueKeys(AllNodes(RootChildren(tree)))
    ensures FlattenSpec(tree).value.Keys == set x | x in AllNodes(RootChildren(tree)) :: NodeKey(x)
    ensures forall x :: x in AllNodes(RootChildren(tree)) ==>
      ChildrenHaveIds(x) && FlattenSpec(tree).value[NodeKey(x)] == Entry(x)
  {
    var visit := VisitOrder(RootChildren(tree));
    VisitOrderNodes(RootChildren(tree));
    FlattenStepsKeys(map[], visit);
    FlattenStepsEntries(map[], visit);
  }

  /** Flattening fails exactly when some node of the forest has a child without an "i" field. */
  lemma FlattenFails(tree: Option<IndexNode>)
    ensures FlattenSpec(tree).None? <==> exists x :: x in AllNodes(RootChildren(tree)) && !ChildrenHaveIds(x)
  {
    VisitOrderNodes(RootChildren(tree));
    FlattenStepsFails(map[], VisitOrder(RootChildren(tree)));
  }

  // =====================================================================
  // Chunk records and help items

  /** One entry of a parsed chunk: its URL key and its optional "t" and "i" lists. */
  datatype ChunkRecord = ChunkRecord(url: string, titles: Option<seq<string>>, ids: Option<seq<TreeId>>)

  /** A parsed chunk, its records in dictionary order. */
  type Chunk = seq<ChunkRecord>

  datatype HelpItem = HelpItem(title: string, helpId: string, treeId: TreeId)

  /** `field.get(key, [""])[0]`: `None` when the list is present but empty (an IndexError). */
  function FirstOrEmpty(field: Option<seq<string>>): (r: Option<string>)
    ensures field.None? ==> r == Some("")
    ensures field.Some? ==> (r.None? <==> |field.value| == 0)
    ensures field.Some? && r.Some? ==> r.value == field.value[0]
  {
    match field
    case None => Some("")
    case Some(xs) => if |xs| == 0 then None else Some(xs[0])
  }

  /** The help id of a chunk URL: every "/content/" and then every ".htm" removed. */
  function HelpIdOf(url: string): string {
    RemoveAll(RemoveAll(url, "/content/"), ".htm")
  }

  /** The usual URL shape "/content/<path>.htm" yields exactly <path>. */
  lemma HelpIdOfContentUrl(path: string)
    requires !Contains(path, "/content/") && !Contains(path, ".htm")
    ensures HelpIdOf("/content/" + path + ".htm") == path
  {
    var url := "/content/" + path + ".htm";
    assert StartsWith(url, "/content/");
    assert url[|"/content/"|..] == path + ".htm";
    assert !Contains(path + ".htm", "/content/") by {
      forall i | 0 <= i <= |path + ".htm"| ensures !StartsWith((path + ".htm")[i..], "/content/") {
        if i + 9 <= |path| {
          assert (path + ".htm")[i..][..9] == path[i..][..9];
        } else if i + 9 <= |path| + 4 {
          assert (path + ".htm")[i..][8] == ".htm"[i + 8 - |path|];
        }
      }
    }
    RemoveAllAbsent(path + ".htm", "/content/");
    RemoveSuffixHtm(path);
  }

  lemma {:induction false} RemoveSuffixHtm(path: string)
    requires !Contains(path, ".htm")
    ensures RemoveAll(path + ".htm", ".htm") == path
  {
    var s := path + ".htm";
    if |path| == 0 {
      assert s == ".htm";
      assert s[4..] == "";
    } else {
      assert !StartsWith(s, ".htm") by {
        if |path| >= 4 {
          assert s[..4] == path[0..][..4];
        } else {
          assert s[..4][|path|] == '.';
        }
      }
      assert s[1..] == path[1..] + ".htm";
      assert !Contains(path[1..], ".htm") by {
        forall i | 0 <= i <= |path[1..]| ensures !StartsWith(path[1..][i..], ".htm") {
          assert path[1..][i..] == path[i + 1..];
        }
      }
      RemoveSuffixHtm(path[1..]);
    }
  }

  /** A record's item: title and tree id default to "", an empty list raises (`None`). */
  function DeriveItem(r: ChunkRecord): (it: Option<HelpItem>)
    ensures it.Some? <==> FirstOrEmpty(r.titles).Some? && FirstOrEmpty(r.ids).Some?
    ensures it.Some? ==> it.value.helpId == HelpIdOf(r.url)
  {
    match (FirstOrEmpty(r.titles), FirstOrEmpty(r.ids))
    case (Some(t), Some(i)) => Some(HelpItem(t, HelpIdOf(r.url), i))
    case _ => None
  }

  /** The sentinel page "___" and everything under "release-notes/" are dropped. */
  predicate Excluded(helpId: string) {
    helpId == "___" || StartsWith(helpId, "release-notes/")
  }

  /** The surviving items of one chunk, in record order; `None` when a record raises. */
  function ChunkItems(chunk: Chunk): Option<seq<HelpItem>> {
    if chunk == [] then Some([])
    else
      match DeriveItem(chunk[0])
      case None => None
      case Some(it) => PrependSome(if Excluded(it.helpId) then [] else [it], ChunkItems(chunk[1..]))
  }

  /**
   * A chunk fails exactly when one of its records has no title or no id;
   * otherwise its items are the derived items of its records that are not excluded.
   */
  lemma {:induction false} ChunkItemsSpec(chunk: Chunk)
    ensures ChunkItems(chunk).None? <==> exists k :: 0 <= k < |chunk| && DeriveItem(chunk[k]).None?
    ensures ChunkItems(chunk).Some? ==> forall it :: it in ChunkItems(chunk).value <==>
      exists k :: 0 <= k < |chunk| && DeriveItem(chunk[k]) == Some(it) && !Excluded(it.helpId)
  {
    if chunk != [] {
      ChunkItemsSpec(chunk[1..]);
      assert forall k :: 1 <= k < |chunk| ==> chunk[k] == chunk[1..][k - 1];
      if ChunkItems(chunk).Some? {
        forall it | it in ChunkItems(chunk).value
          ensures exists k :: 0 <= k < |chunk| && DeriveItem(chunk[k]) == Some(it) && !Excluded(it.helpId)
        {
          if it !in ChunkItems(chunk[1..]).value {
            assert DeriveItem(chunk[0]) == Some(it);
          } else {
            var k :| 0 <= k < |chunk[1..]| && DeriveItem(chunk[1..][k]) == Some(it) && !Excluded(it.helpId);
            assert chunk[k + 1] == chunk[1..][k];
          }
        }
      }
    }
  }

  /** The per-chunk loop of `fetch_chunk` (tools/help_manager.py:70-80) on an already parsed chunk. */
  method ChunkItemsOf(chunk: Chunk) returns (r: Option<seq<HelpItem>>)
    ensures r == ChunkItems(chunk)
  {
    var content: seq<HelpItem> := [];
    assert chunk[0..] == chunk;
    PrependSomeNil(ChunkItems(chunk));
    for i := 0 to |chunk|
      invariant ChunkItems(chunk) == PrependSome(content, ChunkItems(chunk[i..]))
    {
      assert chunk[i..][0] == chunk[i] && chunk[i..][1..] == chunk[i + 1..];
      var item := DeriveItem(chunk[i]);
      if item.None? {
        assert ChunkItems(chunk[i..]) == None;
        return None;
      }
      var kept: seq<HelpItem> := if Excluded(item.value.helpId) then [] else [item.value];
      assert ChunkItems(chunk[i..]) == PrependSome(kept, ChunkItems(chunk[i + 1..]));
      PrependSomeAssoc(content, kept, ChunkItems(chunk[i + 1..]));
      content := content + kept;
    }
    assert chunk[|chunk|..] == [];
    assert content + [] == content;
    r := Some(content);
  }

  /** All chunks' items, chunk after chunk; `None` when any chunk raises. */
  function Merge(chunks: seq<Chunk>): Option<seq<HelpItem>> {
    if chunks == [] then Some([])
    else match ChunkItems(chunks[0])
      case None => None
      case Some(items) => PrependSome(items, Merge(chunks[1..]))
  }

  /** No item of the merged sequence is a sentinel or release-notes page. */
  lemma {:induction false} MergeExcludes(chunks: seq<Chunk>)
    requires Merge(chunks).Some?
    ensures forall it :: it in Merge(chunks).value ==> !Excluded(it.helpId)
  {
    if chunks != [] {
      ChunkItemsSpec(chunks[0]);
      MergeExcludes(chunks[1..]);
    }
  }

  /** The chunk file `{toc_url}{prefix}{i}.js`. */
  function ChunkUrl(tocUrl: string, prefix: string, i: nat): string {
    tocUrl + prefix + Decimal(i) + ".js"
  }

  /** Different chunk indices give different chunk URLs. */
  lemma ChunkUrlInjective(tocUrl: string, prefix: string, i: nat, j: nat)
    requires ChunkUrl(tocUrl, prefix, i) == ChunkUrl(tocUrl, prefix, j)
    ensures i == j
  {
    var a, b := ChunkUrl(tocUrl, prefix, i), ChunkUrl(tocUrl, prefix, j);
    var n := |tocUrl + prefix|;
    assert |Decimal(i)| == |Decimal(j)|;
    assert Decimal(i) == a[n..|a| - 3];
    assert Decimal(j) == b[n..|b| - 3];
    DecimalInjective(i, j);
  }

  /** The chunk URL list of tools/help_manager.py:61-65: one URL per index in `range(num_chunks)`. */
  method ChunkUrls(tocUrl: string, prefix: string, numChunks: int) returns (urls: seq<string>)
    ensures |urls| == if numChunks < 0 then 0 else numChunks
    ensures forall i :: 0 <= i < |urls| ==> urls[i] == ChunkUrl(tocUrl, prefix, i)
  {
    urls := [];
    var i := 0;
    while i < numChunks
      invariant 0 <= i && (numChunks >= 0 ==> i <= numChunks) && (numChunks < 0 ==> i == 0)
      invariant |urls| == i
      invariant forall k :: 0 <= k < i ==> urls[k] == ChunkUrl(tocUrl, prefix, k)
    {
      urls := urls + [ChunkUrl(tocUrl, prefix, i)];
      i := i + 1;
    }
  }

  // =====================================================================
  // Buckets

  /** The (category, subcategory, new id) a help path is filed under. */
  datatype Bucket = Bucket(category: string, subcategory: string, newId: string)

  const SelfSubcategory := "self"

  /** The path split of tools/help_manager.py:90-97. */
  function SplitBucket(helpId: string): (b: Bucket)
    ensures '/' !in b.category
  {
    var s := Split(helpId, '/');
    if |s| > 2 then Bucket(s[0], s[1], Join(s[2..], '/'))
    else Bucket(s[0], SelfSubcategory, Join(s[1..], '/'))
  }

  /**
   * The bucket gives the path back: with three or more segments the path
   * is `category/subcategory/new_id`; otherwise the subcategory is "self"
   * and the path is `category/new_id`, or just `category` (new id "").
   */
  lemma SplitBucketRebuilds(helpId: string)
    ensures var b := SplitBucket(helpId);
      if |Split(helpId, '/')| > 2 then
        '/' !in b.subcategory && helpId == b.category + "/" + b.subcategory + "/" + b.newId
      else
        b.subcategory == SelfSubcategory && '/' !in b.newId &&
        (if '/' in helpId then helpId == b.category + "/" + b.newId else helpId == b.category && b.newId == "")
  {
    var s := Split(helpId, '/');
    JoinSplit(helpId, '/');
    if |s| > 2 {
      JoinFirstTwo(s, '/');
    } else if |s| == 2 {
      JoinPair(s, '/');
    } else {
      assert Join(s, '/') == s[0] && s[1..] == [];
    }
  }

  /** The converse: a path built from slash-free category and subcategory and any rest. */
  lemma SplitBucketOfPath(category: string, subcategory: string, rest: string)
    requires '/' !in category && '/' !in subcategory
    ensures SplitBucket(category + "/" + subcategory + "/" + rest) == Bucket(category, subcategory, rest)
  {
    var p := category + "/" + subcategory + "/" + rest;
    assert p == category + ['/'] + (subcategory + ['/'] + rest);
    SplitAt(category, '/', subcategory + ['/'] + rest);
    SplitAt(subcategory, '/', rest);
    var s := Split(p, '/');
    assert s == [category, subcategory] + Split(rest, '/');
    assert s[2..] == Split(rest, '/');
    JoinSplit(rest, '/');
  }

  /** A two-segment path lands in the category's "self" bucket. */
  lemma SplitBucketOfShortPath(category: string, rest: string)
    requires '/' !in category && '/' !in rest
    ensures SplitBucket(category + "/" + rest) == Bucket(category, SelfSubcategory, rest)
  {
    assert category + "/" + rest == category + ['/'] + rest;
    SplitAt(category, '/', rest);
    SplitNoSep(rest, '/');
    assert Split(category + "/" + rest, '/')[1..] == [rest];
  }

  lemma SplitBucketExamples()
    ensures SplitBucket("a/b") == Bucket("a", "self", "b")
    ensures SplitBucket("a/b/c") == Bucket("a", "b", "c")
    ensures SplitBucket("a/b/c/d") == Bucket("a", "b", "c/d")
    ensures SplitBucket("a") == Bucket("a", "self", "")
  {
    SplitBucketOfShortPath("a", "b");
    assert "a" + "/" + "b" == "a/b";
    SplitBucketOfPath("a", "b", "c");
    assert "a" + "/" + "b" + "/" + "c" == "a/b/c";
    SplitBucketOfPath("a", "b", "c/d");
    assert "a" + "/" + "b" + "/" + "c/d" == "a/b/c/d";
    SplitNoSep("a", '/');
    assert Split("a", '/')[1..] == [];
  }

  /** The items-index key `f"{category}:{subcategory}:{new_id}"`. */
  function ItemKey(b: Bucket): string {
    b.category + ":" + b.subcategory + ":" + b.newId
  }

  // =====================================================================
  // The help tree: category -> subcategory -> items, in insertion order

  datatype SubBucket = SubBucket(name: string, items: seq<HelpItem>)
  datatype CategoryBucket = CategoryBucket(name: string, subs: seq<SubBucket>)

  /** Python's nested `help_tree` dict, keys in insertion order. */
  type HelpTree = seq<CategoryBucket>

  function LookupSub(subs: seq<SubBucket>, sub: string): Option<seq<HelpItem>> {
    if subs == [] then None
    else if subs[0].name == sub then Some(subs[0].items)
    else LookupSub(subs[1..], sub)
  }

  function LookupCategory(tree: HelpTree, cat: string): Option<seq<SubBucket>> {
    if tree == [] then None
    else if tree[0].name == cat then Some(tree[0].subs)
    else LookupCategory(tree[1..], cat)
  }

  /** `help_tree[cat][sub]` when both keys are present. */
  function Lookup(tree: HelpTree, cat: string, sub: string): Option<seq<HelpItem>> {
    match LookupCategory(tree, cat)
    case None => None
    case Some(subs) => LookupSub(subs, sub)
  }

  /** Append `item` to the list under `sub`, creating the entry at the end on first use. */
  function InsertSub(subs: seq<SubBucket>, sub: string, item: HelpItem): seq<SubBucket> {
    if subs == [] then [SubBucket(sub, [item])]
    else if subs[0].name == sub then [SubBucket(sub, subs[0].items + [item])] + subs[1..]
    else [subs[0]] + InsertSub(subs[1..], sub, item)
  }

  /** Lines 100-104: create the category and subcategory on first use, then append. */
  function Insert(tree: HelpTree, cat: string, sub: string, item: HelpItem): HelpTree {
    if tree == [] then [CategoryBucket(cat, InsertSub([], sub, item))]
    else if tree[0].name == cat then [CategoryBucket(cat, InsertSub(tree[0].subs, sub, item))] + tree[1..]
    else [tree[0]] + Insert(tree[1..], cat, sub, item)
  }

  lemma {:induction false} InsertSubLookup(subs: seq<SubBucket>, sub: string, item: HelpItem, sub': string)
    ensures LookupSub(InsertSub(subs, sub, item), sub') ==
      if sub' == sub then Some(LookupSub(subs, sub).GetOr([]) + [item]) else LookupSub(subs, sub')
  {
    if subs == [] {
      assert [] + [item] == [item];
    } else if subs[0].name == sub {
      assert InsertSub(subs, sub, item)[1..] == subs[1..];
    } else {
      assert InsertSub(subs, sub, item)[1..] == InsertSub(subs[1..], sub, item);
      InsertSubLookup(subs[1..], sub, item, sub');
    }
  }

  lemma {:induction false} InsertLookup(tree: HelpTree, cat: string, sub: string, item: HelpItem, cat': string, sub': string)
    ensures Lookup(Insert(tree, cat, sub, item), cat', sub') ==
      if cat' == cat && sub' == sub then Some(Lookup(tree, cat, sub).GetOr([]) + [item]) else Lookup(tree, cat', sub')
  {
    var t' := Insert(tree, cat, sub, item);
    if tree == [] {
      assert t'[1..] == [];
      InsertSubLookup([], sub, item, sub');
    } else if tree[0].name == cat {
      assert t'[1..] == tree[1..];
      InsertSubLookup(tree[0].subs, sub, item, sub');
    } else {
      assert t'[1..] == Insert(tree[1..], cat, sub, item);
      InsertLookup(tree[1..], cat, sub, item, cat', sub');
    }
  }

  /** The category names, in insertion order. */
  function CategoryNames(tree: HelpTree): (r: seq<string>)
    ensures |r| == |tree|
    ensures forall i :: 0 <= i < |tree| ==> r[i] == tree[i].name
  {
    if tree == [] then [] else [tree[0].name] + CategoryNames(tree[1..])
  }

  function SubNames(subs: seq<SubBucket>): (r: seq<string>)
    ensures |r| == |subs|
    ensures forall i :: 0 <= i < |subs| ==> r[i] == subs[i].name
  {
    if subs == [] then [] else [subs[0].name] + SubNames(subs[1..])
  }

  /** No name occurs twice. */
  predicate UniqueNames(s: seq<string>) {
    s == [] || (s[0] !in s[1..] && UniqueNames(s[1..]))
  }

  lemma {:induction false} UniqueNamesSnoc(s: seq<string>, x: string)
    requires UniqueNames(s) && x !in s
    ensures UniqueNames(s + [x])
  {
    if s != [] {
      assert (s + [x])[1..] == s[1..] + [x];
      UniqueNamesSnoc(s[1..], x);
    } else {
      assert [] + [x] == [x];
    }
  }

  /** Dictionary keys are unique at both levels. */
  predicate WellFormedTree(tree: HelpTree) {
    tree == [] ||
    (tree[0].name !in CategoryNames(tree[1..]) && UniqueNames(SubNames(tree[0].subs)) && WellFormedTree(tree[1..]))
  }

  lemma {:induction false} InsertSubNames(subs: seq<SubBucket>, sub: string, item: HelpItem)
    ensures SubNames(InsertSub(subs, sub, item)) ==
      if sub in SubNames(subs) then SubNames(subs) else SubNames(subs) + [sub]
  {
    if subs == [] {
      assert SubNames([SubBucket(sub, [item])]) == [sub];
    } else if subs[0].name == sub {
      assert InsertSub(subs, sub, item)[1..] == subs[1..];
    } else {
      assert InsertSub(subs, sub, item)[1..] == InsertSub(subs[1..], sub, item);
      InsertSubNames(subs[1..], sub, item);
      assert SubNames(subs) == [subs[0].name] + SubNames(subs[1..]);
    }
  }

  lemma {:induction false} InsertNames(tree: HelpTree, cat: string, sub: string, item: HelpItem)
    ensures CategoryNames(Insert(tree, cat, sub, item)) ==
      if cat in CategoryNames(tree) then CategoryNames(tree) else CategoryNames(tree) + [cat]
  {
    if tree == [] {
      assert CategoryNames(Insert(tree, cat, sub, item)) == [cat];
    } else if tree[0].name == cat {
      assert Insert(tree, cat, sub, item)[1..] == tree[1..];
    } else {
      assert Insert(tree, cat, sub, item)[1..] == Insert(tree[1..], cat, sub, item);
      InsertNames(tree[1..], cat, sub, item);
      assert CategoryNames(tree) == [tree[0].name] + CategoryNames(tree[1..]);
    }
  }

  /** Inserting keeps the keys of both levels unique. */
  lemma {:induction false} InsertWellFormed(tree: HelpTree, cat: string, sub: string, item: HelpItem)
    requires WellFormedTree(tree)
    ensures WellFormedTree(Insert(tree, cat, sub, item))
  {
    var t' := Insert(tree, cat, sub, item);
    if tree == [] {
      assert SubNames([SubBucket(sub, [item])]) == [sub];
      assert UniqueNames([sub]) by { assert [sub][1..] == []; }
      assert t'[1..] == [];
    } else if tree[0].name == cat {
      assert t'[1..] == tree[1..];
      InsertSubNames(tree[0].subs, sub, item);
      if sub !in SubNames(tree[0].subs) {
        UniqueNamesSnoc(SubNames(tree[0].subs), sub);
      }
    } else {
      assert t'[1..] == Insert(tree[1..], cat, sub, item);
      InsertNames(tree[1..], cat, sub, item);
      InsertWellFormed(tree[1..], cat, sub, item);
    }
  }

  // =====================================================================
  // The build loop of tools/help_manager.py:87-115

  /** An item placed in its bucket: its help id replaced by the bucket's new id. */
  function Placed(item: HelpItem): HelpItem {
    item.(helpId := SplitBucket(item.helpId).newId)
  }

  /** A node-index entry. */
  datatype NodeInfo = NodeInfo(category: string, subcategory: string, helpId: string, subNodes: seq<TreeId>)

  /** The three structures the loop writes: the local tree and the two class-level indices. */
  datatype BuildState = BuildState(tree: HelpTree, items: map<string, TreeId>, nodes: map<TreeId, NodeInfo>)

  /** The node-index entry the first item with a given tree id writes. */
  function NodeInfoOf(item: HelpItem, flat: FlatTable): NodeInfo
    requires Some(item.treeId) in flat
  {
    var b := SplitBucket(item.helpId);
    NodeInfo(b.category, b.subcategory, b.newId, flat[Some(item.treeId)].childIds)
  }

  /** The key an item is indexed under. */
  function KeyOf(item: HelpItem): string {
    ItemKey(SplitBucket(item.helpId))
  }

  /** One iteration for one item; `false` when `help_tree_index_flat[tree_id]` raises. */
  function Step(st: BuildState, flat: FlatTable, item: HelpItem): (BuildState, bool) {
    var b := SplitBucket(item.helpId);
    var tree := Insert(st.tree, b.category, b.subcategory, Placed(item));
    var items := st.items[KeyOf(item) := item.treeId];
    if item.treeId in st.nodes then (BuildState(tree, items, st.nodes), true)
    else if Some(item.treeId) in flat then (BuildState(tree, items, st.nodes[item.treeId := NodeInfoOf(item, flat)]), true)
    else (BuildState(tree, items, st.nodes), false)
  }

  /** The state after the loop over `items`, and whether it ran to the end. */
  function Run(st: BuildState, flat: FlatTable, items: seq<HelpItem>): (BuildState, bool)
    decreases |items|
  {
    if items == [] then (st, true)
    else
      var (st', ok) := Step(st, flat, items[0]);
      if ok then Run(st', flat, items[1..]) else (st', false)
  }

  /** The items among `items` that land in bucket (cat, sub), in order, with their new ids. */
  function ItemsIn(items: seq<HelpItem>, cat: string, sub: string): seq<HelpItem> {
    if items == [] then []
    else
      var b := SplitBucket(items[0].helpId);
      (if b.category == cat && b.subcategory == sub then [Placed(items[0])] else []) + ItemsIn(items[1..], cat, sub)
  }

  /**
   * The loop stops early exactly when some item's tree id is neither in the
   * node index it started with nor in the flat table.
   */
  lemma {:induction false} RunOkIff(st: BuildState, flat: FlatTable, items: seq<HelpItem>)
    ensures Run(st, flat, items).1 <==>
      forall it :: it in items ==> it.treeId in st.nodes || Some(it.treeId) in flat
    decreases |items|
  {
    if items != [] {
      var (st', ok) := Step(st, flat, items[0]);
      assert forall t :: t in st'.nodes ==> t in st.nodes || Some(t) in flat;
      assert st.nodes.Keys <= st'.nodes.Keys;
      RunOkIff(st', flat, items[1..]);
      assert forall it :: it in items <==> it == items[0] || it in items[1..];
    }
  }

  /**
   * After a complete run every bucket holds, in order, each item that maps
   * to it (duplicates kept), after what it held before.
   */
  lemma {:induction false} RunTree(st: BuildState, flat: FlatTable, items: seq<HelpItem>, cat: string, sub: string)
    requires Run(st, flat, items).1
    ensures Lookup(Run(st, flat, items).0.tree, cat, sub) ==
      if Lookup(st.tree, cat, sub).None? && ItemsIn(items, cat, sub) == [] then None
      else Some(Lookup(st.tree, cat, sub).GetOr([]) + ItemsIn(items, cat, sub))
    decreases |items|
  {
    var L := Lookup(st.tree, cat, sub);
    if items == [] {
      assert L.Some? ==> L.GetOr([]) + [] == L.value;
    } else {
      var st1 := Step(st, flat, items[0]).0;
      RunUnfold(st, flat, items);
      StepTree(st, flat, items[0], cat, sub);
      RunTree(st1, flat, items[1..], cat, sub);
      var b := SplitBucket(items[0].helpId);
      var matched := b.category == cat && b.subcategory == sub;
      var p, rest := Placed(items[0]), ItemsIn(items[1..], cat, sub);
      assert ItemsIn(items, cat, sub) == if matched then [p] + rest else rest;
      BucketStep(L, Lookup(st1.tree, cat, sub), Lookup(Run(st1, flat, items[1..]).0.tree, cat, sub),
                 matched, p, rest, ItemsIn(items, cat, sub));
    }
  }

  /** A bucket's content after one step and then the rest of a run, as one append. */
  lemma BucketStep(before: Option<seq<HelpItem>>, afterStep: Option<seq<HelpItem>>, after: Option<seq<HelpItem>>,
                   matched: bool, p: HelpItem, rest: seq<HelpItem>, all: seq<HelpItem>)
    requires afterStep == if matched then Some(before.GetOr([]) + [p]) else before
    requires after == if afterStep.None? && rest == [] then None else Some(afterStep.GetOr([]) + rest)
    requires all == if matched then [p] + rest else rest
    ensures after == if before.None? && all == [] then None else Some(before.GetOr([]) + all)
  {
    if matched {
      assert before.GetOr([]) + [p] + rest == before.GetOr([]) + ([p] + rest);
    } else if before.Some? {
      assert before.GetOr([]) + [] == before.value;
    }
  }

  /** A completed run over a non-empty list is its first step followed by the run over the rest. */
  lemma RunUnfold(st: BuildState, flat: FlatTable, items: seq<HelpItem>)
    requires items != [] && Run(st, flat, items).1
    ensures Step(st, flat, items[0]).1
    ensures Run(st, flat, items) == Run(Step(st, flat, items[0]).0, flat, items[1..])
  {
  }

  /** The run from position `i` is one step followed, when that step succeeds, by the run from `i + 1`. */
  lemma RunAt(st: BuildState, flat: FlatTable, items: seq<HelpItem>, i: int)
    requires 0 <= i < |items|
    ensures var (st', ok) := Step(st, flat, items[i]);
      Run(st, flat, items[i..]) == if ok then Run(st', flat, items[i + 1..]) else (st', false)
  {
    assert items[i..][0] == items[i] && items[i..][1..] == items[i + 1..];
  }

  /** One step appends the placed item to its own bucket and leaves the others alone. */
  lemma StepTree(st: BuildState, flat: FlatTable, item: HelpItem, cat: string, sub: string)
    ensures var b := SplitBucket(item.helpId);
      Lookup(Step(st, flat, item).0.tree, cat, sub) ==
        if b.category == cat && b.subcategory == sub then Some(Lookup(st.tree, cat, sub).GetOr([]) + [Placed(item)])
        else Lookup(st.tree, cat, sub)
  {
    var b := SplitBucket(item.helpId);
    InsertLookup(st.tree, b.category, b.subcategory, Placed(item), cat, sub);
  }

  /** The tree stays a well-formed two-level dictionary. */
  lemma {:induction false} RunWellFormed(st: BuildState, flat: FlatTable, items: seq<HelpItem>)
    requires WellFormedTree(st.tree)
    ensures WellFormedTree(Run(st, flat, items).0.tree)
    decreases |items|
  {
    if items != [] {
      var b := SplitBucket(items[0].helpId);
      InsertWellFormed(st.tree, b.category, b.subcategory, Placed(items[0]));
      var (st', ok) := Step(st, flat, items[0]);
      if ok {
        RunWellFormed(st', flat, items[1..]);
      }
    }
  }

  /** The items index gains every item's key. */
  lemma {:induction false} RunItemsIndexKeys(st: BuildState, flat: FlatTable, items: seq<HelpItem>)
    requires Run(st, flat, items).1
    ensures Run(st, flat, items).0.items.Keys == st.items.Keys + set it | it in items :: KeyOf(it)
    decreases |items|
  {
    if items != [] {
      RunUnfold(st, flat, items);
      var st' := Step(st, flat, items[0]).0;
      assert st'.items.Keys == st.items.Keys + {KeyOf(items[0])};
      RunItemsIndexKeys(st', flat, items[1..]);
      KeySetCons(items);
    }
  }

  /** A key no item writes keeps its old tree id. */
  lemma {:induction false} RunItemsIndexUntouched(st: BuildState, flat: FlatTable, items: seq<HelpItem>, k: string)
    requires Run(st, flat, items).1
    requires k in st.items && forall it :: it in items ==> KeyOf(it) != k
    ensures k in Run(st, flat, items).0.items && Run(st, flat, items).0.items[k] == st.items[k]
    decreases |items|
  {
    if items != [] {
      RunUnfold(st, flat, items);
      var st' := Step(st, flat, items[0]).0;
      assert KeyOf(items[0]) != k;
      assert st'.items[k] == st.items[k];
      assert forall it :: it in items[1..] ==> it in items;
      RunItemsIndexUntouched(st', flat, items[1..], k);
    }
  }

  lemma KeySetCons(items: seq<HelpItem>)
    requires items != []
    ensures (set it | it in items :: KeyOf(it)) == {KeyOf(items[0])} + set it | it in items[1..] :: KeyOf(it)
  {
    assert forall it :: it in items <==> it == items[0] || it in items[1..];
  }

  /** Last writer wins: a key holds the tree id of the last item with that key. */
  lemma {:induction false} RunItemsIndexLast(st: BuildState, flat: FlatTable, items: seq<HelpItem>, j: nat)
    requires Run(st, flat, items).1
    requires j < |items|
    requires forall j' :: j < j' < |items| ==> KeyOf(items[j']) != KeyOf(items[j])
    ensures KeyOf(items[j]) in Run(st, flat, items).0.items
    ensures Run(st, flat, items).0.items[KeyOf(items[j])] == items[j].treeId
    decreases |items|
  {
    var (st', ok) := Step(st, flat, items[0]);
    if j == 0 {
      forall it | it in items[1..] ensures KeyOf(it) != KeyOf(items[0]) {
        var j' :| 0 <= j' < |items[1..]| && items[1..][j'] == it;
        assert items[j' + 1] == it;
      }
      RunItemsIndexUntouched(st', flat, items[1..], KeyOf(items[0]));
    } else {
      forall j' | j - 1 < j' < |items| - 1 ensures KeyOf(items[1..][j']) != KeyOf(items[1..][j - 1]) {
        assert items[1..][j'] == items[j' + 1];
      }
      RunItemsIndexLast(st', flat, items[1..], j - 1);
    }
  }

  /** The node index gains every item's tree id, and entries already present are never overwritten. */
  lemma {:induction false} RunNodeIndexKeys(st: BuildState, flat: FlatTable, items: seq<HelpItem>)
    requires Run(st, flat, items).1
    ensures Run(st, flat, items).0.nodes.Keys == st.nodes.Keys + set it | it in items :: it.treeId
    ensures forall t :: t in st.nodes ==> Run(st, flat, items).0.nodes[t] == st.nodes[t]
    decreases |items|
  {
    if items != [] {
      var (st', ok) := Step(st, flat, items[0]);
      RunNodeIndexKeys(st', flat, items[1..]);
      assert forall it :: it in items <==> it == items[0] || it in items[1..];
    }
  }

  /** First writer wins: a new tree id holds the entry of the first item with that tree id. */
  lemma {:induction false} RunNodeIndexFirst(st: BuildState, flat: FlatTable, items: seq<HelpItem>, j: nat)
    requires Run(st, flat, items).1
    requires j < |items| && items[j].treeId !in st.nodes
    requires forall j' :: 0 <= j' < j ==> items[j'].treeId != items[j].treeId
    ensures Some(items[j].treeId) in flat && items[j].treeId in Run(st, flat, items).0.nodes
    ensures Run(st, flat, items).0.nodes[items[j].treeId] == NodeInfoOf(items[j], flat)
    decreases |items|
  {
    var (st', ok) := Step(st, flat, items[0]);
    if j == 0 {
      RunNodeIndexKeys(st', flat, items[1..]);
    } else {
      assert items[0].treeId != items[j].treeId;
      assert items[j] == items[1..][j - 1];
      forall j' | 0 <= j' < j - 1 ensures items[1..][j'].treeId != items[1..][j - 1].treeId {
        assert items[1..][j'] == items[j' + 1];
      }
      RunNodeIndexFirst(st', flat, items[1..], j - 1);
    }
  }

  /** Every tree id the items index points to has a node-index entry. */
  predicate IndexClosed(items: map<string, TreeId>, nodes: map<TreeId, NodeInfo>) {
    forall k :: k in items ==> items[k] in nodes
  }

  /** A complete run keeps the items index pointing into the node index. */
  lemma {:induction false} RunKeepsIndexClosed(st: BuildState, flat: FlatTable, items: seq<HelpItem>)
    requires IndexClosed(st.items, st.nodes)
    requires Run(st, flat, items).1
    ensures IndexClosed(Run(st, flat, items).0.items, Run(st, flat, items).0.nodes)
    decreases |items|
  {
    if items != [] {
      var (st', ok) := Step(st, flat, items[0]);
      RunKeepsIndexClosed(st', flat, items[1..]);
    }
  }

  /**
   * A run that stops early has already written the failing item's
   * items-index key, pointing at a tree id the node index lacks.
   */
  lemma {:induction false} RunFailureLeavesDanglingKey(st: BuildState, flat: FlatTable, items: seq<HelpItem>)
    requires !Run(st, flat, items).1
    ensures exists k :: k in Run(st, flat, items).0.items && Run(st, flat, items).0.items[k] !in Run(st, flat, items).0.nodes
    decreases |items|
  {
    if items != [] {
      var (st', ok) := Step(st, flat, items[0]);
      if ok {
        RunFailureLeavesDanglingKey(st', flat, items[1..]);
      } else {
        assert KeyOf(items[0]) in st'.items && st'.items[KeyOf(items[0])] == items[0].treeId;
      }
    }
  }

  // =====================================================================
  // The whole load

  /** The fetched payloads and base URLs the load and the page reads work from. */
  datatype HelpSources = HelpSources(
    index: IndexPayload,            // the parsed root index payload
    tocUrl: string,                 // HELP_TOC_URL
    fetchChunk: string -> Chunk,    // GET + parse of one chunk file
    contentUrl: string)             // HELP_BASE_CONTENT_URL

  function NumChunks(src: HelpSources): int {
    src.index.numChunks.GetOr(DefaultNumChunks)
  }

  function ChunkPrefix(src: HelpSources): string {
    src.index.prefix.GetOr(DefaultChunkPrefix)
  }

  /** The parsed chunks, in chunk-index order. */
  function FetchedChunks(src: HelpSources): (cs: seq<Chunk>)
    ensures |cs| == if NumChunks(src) < 0 then 0 else NumChunks(src)
  {
    var n := if NumChunks(src) < 0 then 0 else NumChunks(src);
    seq(n, i requires 0 <= i < n => src.fetchChunk(ChunkUrl(src.tocUrl, ChunkPrefix(src), i)))
  }

  /**
   * The state `_load_help_tree` leaves behind from index state (items, nodes):
   * the final build state and whether the load completed. A flattening or
   * chunk failure leaves the indices untouched.
   */
  function LoadSpec(src: HelpSources, items: map<string, TreeId>, nodes: map<TreeId, NodeInfo>): (BuildState, bool) {
    var start := BuildState([], items, nodes);
    match FlattenSpec(src.index.tree)
    case None => (start, false)
    case Some(flat) =>
      match Merge(FetchedChunks(src))
      case None => (start, false)
      case Some(merged) => Run(start, flat, merged)
  }
}
