/**
 * The AI-scriptless mobile test-tree formatters of
 * formatters/ai_scriptless_mobile.py: the filter-value collector and the
 * paged test lister. Both walk each visibility group's tree with an
 * explicit stack: `pop()` takes the last node, and a CONTAINER pushes its
 * children reversed, so they are popped first to last.
 */
module MobileFormat {
  import opened Wrappers
  import opened Strings
  import opened Lists

  /** One node of the test tree; a missing "items" list is `[]`. */
  datatype TestNode = TestNode(
    nodeType: string,
    name: string,
    key: string,
    createdBy: string,
    modifiedBy: string,
    created: string,
    modified: string,
    children: seq<TestNode>)

  /** One entry of the payload's top-level "items": a visibility and its tests. */
  datatype VisibilityGroup = VisibilityGroup(visibility: string, items: seq<TestNode>)

  /** The three filters the lister looks at; `None` means the key is absent. */
  datatype Filters = Filters(visibility: Option<string>, testName: Option<string>, ownerList: Option<seq<string>>)

  const Simple := "SIMPLE"
  const Container := "CONTAINER"

  // ---------------------------------------------------------------------
  // The stack walk

  /** A node followed, when it is a CONTAINER, by its descendants in order. */
  function Preorder(n: TestNode): seq<TestNode>
    decreases n, 1
  {
    [n] + if n.nodeType == Container then PreorderAll(n.children) else []
  }

  function PreorderAll(ns: seq<TestNode>): seq<TestNode>
    decreases ns, 0
  {
    if ns == [] then [] else Preorder(ns[0]) + PreorderAll(ns[1..])
  }

  /**
   * The nodes a stack holding `stack` pops, in order, until it is empty:
   * the top of the stack is its last element, so top-level nodes come
   * last to first, each followed by its subtree.
   */
  function Visit(stack: seq<TestNode>): seq<TestNode> {
    PreorderAll(Reverse(stack))
  }

  /** The stack after one `pop()` and, for a CONTAINER, `extend(reversed(children))`. */
  function NextStack(stack: seq<TestNode>): seq<TestNode>
    requires stack != []
  {
    var top := stack[|stack| - 1];
    var rest := stack[..|stack| - 1];
    if top.nodeType == Container then rest + Reverse(top.children) else rest
  }

  lemma {:induction false} PreorderAllAppend(a: seq<TestNode>, b: seq<TestNode>)
    ensures PreorderAll(a + b) == PreorderAll(a) + PreorderAll(b)
  {
    if a == [] {
      assert a + b == b;
    } else {
      assert (a + b)[0] == a[0] && (a + b)[1..] == a[1..] + b;
      PreorderAllAppend(a[1..], b);
    }
  }

  /** One loop iteration: the popped node is the first one visited, the new stack visits the rest. */
  lemma PopStep(stack: seq<TestNode>)
    requires stack != []
    ensures Visit(stack) == [stack[|stack| - 1]] + Visit(NextStack(stack))
  {
    var top := stack[|stack| - 1];
    var rest := stack[..|stack| - 1];
    assert stack == rest + [top];
    VisitSnoc(rest, top);
    if top.nodeType == Container {
      assert NextStack(stack) == rest + Reverse(top.children);
      VisitExtend(rest, top.children);
      assert Preorder(top) == [top] + PreorderAll(top.children);
    } else {
      assert NextStack(stack) == rest;
      assert Preorder(top) == [top];
    }
  }

  /** The top of the stack is visited first, with its subtree. */
  lemma VisitSnoc(rest: seq<TestNode>, top: TestNode)
    ensures Visit(rest + [top]) == Preorder(top) + Visit(rest)
  {
    ReverseSnoc(rest, top);
    PreorderAllCons(top, Reverse(rest));
  }

  /** Children pushed in reverse are visited in order, before the rest of the stack. */
  lemma VisitExtend(rest: seq<TestNode>, children: seq<TestNode>)
    ensures Visit(rest + Reverse(children)) == PreorderAll(children) + Visit(rest)
  {
    assert Reverse(rest + Reverse(children)) == children + Reverse(rest) by {
      ReverseAppend(rest, Reverse(children));
      ReverseReverse(children);
    }
    PreorderAllAppend(children, Reverse(rest));
  }

  lemma PreorderAllCons(n: TestNode, ns: seq<TestNode>)
    ensures PreorderAll([n] + ns) == Preorder(n) + PreorderAll(ns)
  {
    assert ([n] + ns)[0] == n && ([n] + ns)[1..] == ns;
  }

  /** A stack of nodes that are not containers is visited top first, one node each. */
  lemma {:induction false} VisitLeaves(stack: seq<TestNode>)
    requires forall i :: 0 <= i < |stack| ==> stack[i].nodeType != Container
    ensures Visit(stack) == Reverse(stack)
  {
    PreorderAllLeaves(Reverse(stack));
  }

  lemma {:induction false} PreorderAllLeaves(ns: seq<TestNode>)
    requires forall i :: 0 <= i < |ns| ==> ns[i].nodeType != Container
    ensures PreorderAll(ns) == ns
  {
    if ns != [] {
      PreorderAllLeaves(ns[1..]);
      assert Preorder(ns[0]) == [ns[0]] + [];
    }
  }

  /** The walk is a reordering of the natural pre-order: every reachable node, once. */
  lemma {:induction false} VisitIsReordering(stack: seq<TestNode>)
    ensures multiset(Visit(stack)) == multiset(PreorderAll(stack))
    decreases |stack|
  {
    if stack != [] {
      var top := stack[|stack| - 1];
      var rest := stack[..|stack| - 1];
      assert stack == rest + [top];
      ReverseSnoc(rest, top);
      var r := [top] + Reverse(rest);
      assert r[0] == top && r[1..] == Reverse(rest);
      VisitIsReordering(rest);
      PreorderAllAppend(rest, [top]);
      assert [top][1..] == [];
    }
  }

  /**
   * The pre-order holds the top-level nodes and, with every CONTAINER in
   * it, that container's children; and nothing else.
   */
  lemma {:induction false} PreorderAllClosed(ns: seq<TestNode>)
    ensures forall n :: n in ns ==> n in PreorderAll(ns)
    ensures forall c, n :: c in PreorderAll(ns) && c.nodeType == Container && n in c.children ==> n in PreorderAll(ns)
    ensures forall n :: n in PreorderAll(ns) ==> n in ns || exists c :: c in PreorderAll(ns) && c.nodeType == Container && n in c.children
    decreases ns, 0
  {
    if ns != [] {
      PreorderClosed(ns[0]);
      PreorderAllClosed(ns[1..]);
    }
  }

  lemma {:induction false} PreorderClosed(n: TestNode)
    ensures n in Preorder(n)
    ensures forall c, m :: c in Preorder(n) && c.nodeType == Container && m in c.children ==> m in Preorder(n)
    ensures forall m :: m in Preorder(n) ==> m == n || exists c :: c in Preorder(n) && c.nodeType == Container && m in c.children
    decreases n, 1
  {
    if n.nodeType == Container {
      PreorderAllClosed(n.children);
    }
  }

  // ---------------------------------------------------------------------
  // Filter values (format_ai_scriptless_mobile_tests_filter_values)

  /** `name.rstrip('.xml')`: strips a trailing run of '.', 'x', 'm' and 'l', not the suffix. */
  function Cut(name: string): (r: string)
    ensures StartsWith(name, r)
    ensures forall i :: |r| <= i < |name| ==> name[i] in {'.', 'x', 'm', 'l'}
    ensures |r| > 0 ==> r[|r| - 1] !in {'.', 'x', 'm', 'l'}
  {
    RStrip(name, {'.', 'x', 'm', 'l'})
  }

  /** The cut is greedy: "mail.xml" loses its "l" as well as ".xml". */
  lemma CutIsNotSuffixRemoval()
    ensures Cut("mail.xml") == "mai"
    ensures Cut("report.xml") == "report"
  {
    assert "mail.xml"[..7] == "mail.xm";
    assert "mail.xm"[..6] == "mail.x";
    assert "mail.x"[..5] == "mail.";
    assert "mail."[..4] == "mail";
    assert "mail"[..3] == "mai";
    assert "report.xml"[..9] == "report.xm";
    assert "report.xm"[..8] == "report.x";
    assert "report.x"[..7] == "report.";
    assert "report."[..6] == "report";
  }

  /** The test name a node contributes: its cut name when it is SIMPLE. */
  function NameOf(n: TestNode): seq<string> {
    if n.nodeType == Simple then [Cut(n.name)] else []
  }

  /** The owners a node contributes: creator then modifier when it is SIMPLE. */
  function OwnersOf(n: TestNode): seq<string> {
    if n.nodeType == Simple then [n.createdBy, n.modifiedBy] else []
  }

  /** The test names a visit contributes, in walk order. */
  function NamesIn(visit: seq<TestNode>): seq<string> {
    if visit == [] then [] else NameOf(visit[0]) + NamesIn(visit[1..])
  }

  function OwnersIn(visit: seq<TestNode>): seq<string> {
    if visit == [] then [] else OwnersOf(visit[0]) + OwnersIn(visit[1..])
  }

  /** Every group's names, in group order and walk order. */
  function AllNames(groups: seq<VisibilityGroup>): seq<string> {
    if groups == [] then [] else NamesIn(Visit(groups[0].items)) + AllNames(groups[1..])
  }

  function AllOwners(groups: seq<VisibilityGroup>): seq<string> {
    if groups == [] then [] else OwnersIn(Visit(groups[0].items)) + AllOwners(groups[1..])
  }

  /** A visited SIMPLE node anywhere in the groups. */
  predicate SimpleIn(groups: seq<VisibilityGroup>, n: TestNode) {
    exists g :: g in groups && n in Visit(g.items) && n.nodeType == Simple
  }

  lemma {:induction false} NamesInMembers(visit: seq<TestNode>)
    ensures forall x :: x in NamesIn(visit) <==> exists n :: n in visit && n.nodeType == Simple && Cut(n.name) == x
    ensures forall x :: x in OwnersIn(visit) <==> exists n :: n in visit && n.nodeType == Simple && (n.createdBy == x || n.modifiedBy == x)
  {
    if visit != [] {
      NamesInMembers(visit[1..]);
      assert forall n :: n in visit <==> n == visit[0] || n in visit[1..];
    }
  }

  lemma {:induction false} AllNamesMembers(groups: seq<VisibilityGroup>)
    ensures forall x :: x in AllNames(groups) <==> exists n :: SimpleIn(groups, n) && Cut(n.name) == x
    ensures forall x :: x in AllOwners(groups) <==> exists n :: SimpleIn(groups, n) && (n.createdBy == x || n.modifiedBy == x)
  {
    if groups != [] {
      NamesInMembers(Visit(groups[0].items));
      AllNamesMembers(groups[1..]);
      assert forall g :: g in groups <==> g == groups[0] || g in groups[1..];
      forall x | x in AllNames(groups) ensures exists n :: SimpleIn(groups, n) && Cut(n.name) == x {
        if x in NamesIn(Visit(groups[0].items)) {
          var n :| n in Visit(groups[0].items) && n.nodeType == Simple && Cut(n.name) == x;
          assert SimpleIn(groups, n);
        } else {
          assert x in AllNames(groups[1..]);
          var n :| SimpleIn(groups[1..], n) && Cut(n.name) == x;
          assert SimpleIn(groups, n);
        }
      }
      forall x | x in AllOwners(groups)
        ensures exists n :: SimpleIn(groups, n) && (n.createdBy == x || n.modifiedBy == x)
      {
        if x in OwnersIn(Visit(groups[0].items)) {
          var n :| n in Visit(groups[0].items) && n.nodeType == Simple && (n.createdBy == x || n.modifiedBy == x);
          assert SimpleIn(groups, n);
        } else {
          assert x in AllOwners(groups[1..]);
          var n :| SimpleIn(groups[1..], n) && (n.createdBy == x || n.modifiedBy == x);
          assert SimpleIn(groups, n);
        }
      }
      forall n | SimpleIn(groups, n) ensures Cut(n.name) in AllNames(groups) && n.createdBy in AllOwners(groups) && n.modifiedBy in AllOwners(groups) {
        var g :| g in groups && n in Visit(g.items) && n.nodeType == Simple;
        if g != groups[0] {
          assert SimpleIn(groups[1..], n);
        }
      }
    }
  }

  /** The formatter's `{"test_name": …, "owner_list": …}`. */
  datatype FilterValues = FilterValues(testName: seq<string>, ownerList: seq<string>)

  /** What the collector returns: first-encounter order, duplicates dropped. */
  function FilterValuesOf(groups: seq<VisibilityGroup>): FilterValues {
    FilterValues(AddAll([], AllNames(groups)), AddAll([], AllOwners(groups)))
  }

  /**
   * Neither list has duplicates; `test_name` holds exactly the cut names of
   * the SIMPLE nodes and `owner_list` exactly their creators and modifiers.
   */
  lemma FilterValuesSpec(groups: seq<VisibilityGroup>)
    ensures var fv := FilterValuesOf(groups);
      NoDup(fv.testName) && NoDup(fv.ownerList) &&
      (forall x :: x in fv.testName <==> exists n :: SimpleIn(groups, n) && Cut(n.name) == x) &&
      (forall x :: x in fv.ownerList <==> exists n :: SimpleIn(groups, n) && (n.createdBy == x || n.modifiedBy == x))
  {
    var fv := FilterValuesOf(groups);
    AllNamesMembers(groups);
    assert NoDup(fv.testName) && forall x :: x in fv.testName <==> x in AllNames(groups) by {
      AddAllSpec([], AllNames(groups));
    }
    assert NoDup(fv.ownerList) && forall x :: x in fv.ownerList <==> x in AllOwners(groups) by {
      AddAllSpec([], AllOwners(groups));
    }
  }

  /** The while loop over one group's stack (formatters/ai_scriptless_mobile.py:11-24). */
  method CollectGroupValues(items: seq<TestNode>, names: seq<string>, owners: seq<string>)
    returns (names': seq<string>, owners': seq<string>)
    ensures names' == AddAll(names, NamesIn(Visit(items)))
    ensures owners' == AddAll(owners, OwnersIn(Visit(items)))
  {
    var stack := items;
    names', owners' := names, owners;
    while stack != []
      invariant AddAll(names', NamesIn(Visit(stack))) == AddAll(names, NamesIn(Visit(items)))
      invariant AddAll(owners', OwnersIn(Visit(stack))) == AddAll(owners, OwnersIn(Visit(items)))
      decreases |Visit(stack)|
    {
      var test := stack[|stack| - 1];
      ghost var next := NextStack(stack);
      PopStep(stack);
      ValuesStep(stack);
      AddAllAppend(names', NameOf(test), NamesIn(Visit(next)));
      AddAllAppend(owners', OwnersOf(test), OwnersIn(Visit(next)));
      AddValuesOf(names', owners', test);
      ghost var names1, owners1 := AddAll(names', NameOf(test)), AddAll(owners', OwnersOf(test));
      stack := stack[..|stack| - 1];
      if test.nodeType == Simple {
        var testName := Cut(test.name);
        if testName !in names' {
          names' := names' + [testName];
        }
        if test.createdBy !in owners' {
          owners' := owners' + [test.createdBy];
        }
        if test.modifiedBy !in owners' {
          owners' := owners' + [test.modifiedBy];
        }
      } else if test.nodeType == Container {
        stack := stack + Reverse(test.children);
      }
      assert stack == next && names' == names1 && owners' == owners1;
    }
  }

  /** What one popped node adds to the two visits' value lists. */
  lemma ValuesStep(stack: seq<TestNode>)
    requires stack != []
    ensures NamesIn(Visit(stack)) == NameOf(stack[|stack| - 1]) + NamesIn(Visit(NextStack(stack)))
    ensures OwnersIn(Visit(stack)) == OwnersOf(stack[|stack| - 1]) + OwnersIn(Visit(NextStack(stack)))
  {
    PopStep(stack);
    var v := [stack[|stack| - 1]] + Visit(NextStack(stack));
    assert v[0] == stack[|stack| - 1] && v[1..] == Visit(NextStack(stack));
  }

  /** Adding one node's values is the duplicate-skipping appends of the loop body. */
  lemma AddValuesOf(names: seq<string>, owners: seq<string>, n: TestNode)
    ensures AddAll(names, NameOf(n)) == if n.nodeType == Simple then AddNew(names, Cut(n.name)) else names
    ensures AddAll(owners, OwnersOf(n)) ==
      if n.nodeType == Simple then AddNew(AddNew(owners, n.createdBy), n.modifiedBy) else owners
  {
    if n.nodeType == Simple {
      var one := [Cut(n.name)];
      assert one[0] == Cut(n.name) && one[1..] == [];
      var pair := [n.createdBy, n.modifiedBy];
      var o1 := AddNew(owners, n.createdBy);
      assert pair[0] == n.createdBy && pair[1..] == [n.modifiedBy];
      assert AddAll(owners, pair) == AddAll(o1, [n.modifiedBy]);
      assert [n.modifiedBy][0] == n.modifiedBy && [n.modifiedBy][1..] == [];
      assert AddAll(o1, [n.modifiedBy]) == AddAll(AddNew(o1, n.modifiedBy), []);
    }
  }

  /** `format_ai_scriptless_mobile_tests_filter_values` (formatters/ai_scriptless_mobile.py:4-25). */
  method FormatFilterValues(groups: seq<VisibilityGroup>) returns (r: FilterValues)
    ensures r == FilterValuesOf(groups)
  {
    var names: seq<string> := [];
    var owners: seq<string> := [];
    for i := 0 to |groups|
      invariant AddAll(names, AllNames(groups[i..])) == AddAll([], AllNames(groups))
      invariant AddAll(owners, AllOwners(groups[i..])) == AddAll([], AllOwners(groups))
    {
      assert groups[i..][0] == groups[i] && groups[i..][1..] == groups[i + 1..];
      AddAllAppend(names, NamesIn(Visit(groups[i].items)), AllNames(groups[i + 1..]));
      AddAllAppend(owners, OwnersIn(Visit(groups[i].items)), AllOwners(groups[i + 1..]));
      names, owners := CollectGroupValues(groups[i].items, names, owners);
    }
    assert groups[|groups|..] == [];
    r := FilterValues(names, owners);
  }

  // ---------------------------------------------------------------------
  // Test listing (format_ai_scriptless_mobile_tests)

  /** The listing line of one test. */
  function Entry(n: TestNode): (r: string)
    ensures StartsWith(r, "id:" + n.key + " name:" + Cut(n.name) + " created[user:")
    ensures EndsWith(r, "]")
  {
    var head := "id:" + n.key + " name:" + Cut(n.name) + " created[user:";
    var tail := n.createdBy + " date:" + n.created + "] modified[user:" + n.modifiedBy + " date:" + n.modified + "]";
    assert (head + tail)[..|head|] == head;
    head + tail
  }

  /** The whole group is skipped when a visibility filter is given and differs. */
  predicate GroupSkipped(g: VisibilityGroup, filters: Filters) {
    filters.visibility.Some? && g.visibility != filters.visibility.value
  }

  /**
   * A SIMPLE node the name filter (a case-insensitive substring test) or
   * the owner filter (on the creator only) rejects.
   */
  predicate Rejected(n: TestNode, filters: Filters) {
    (filters.testName.Some? && !Contains(Lower(n.name), Lower(filters.testName.value))) ||
    (filters.ownerList.Some? && n.createdBy !in filters.ownerList.value)
  }

  /** The entries of the SIMPLE nodes that pass the filters, in walk order. */
  function Matches(visit: seq<TestNode>, filters: Filters): seq<string> {
    if visit == [] then []
    else (if visit[0].nodeType == Simple && !Rejected(visit[0], filters) then [Entry(visit[0])] else [])
         + Matches(visit[1..], filters)
  }

  /** Every match, group by group, with the skipped groups left out: the reference listing. */
  function AllMatches(groups: seq<VisibilityGroup>, filters: Filters): seq<string> {
    if groups == [] then []
    else (if GroupSkipped(groups[0], filters) then [] else Matches(Visit(groups[0].items), filters))
         + AllMatches(groups[1..], filters)
  }

  /**
   * One group's while loop as written (formatters/ai_scriptless_mobile.py:40-54):
   * a rejected SIMPLE node `continue`s past the length test; any other node
   * is handled and then the loop breaks once more than `offset` entries
   * have been collected.
   */
  function CollectVisit(acc: seq<string>, visit: seq<TestNode>, filters: Filters, offset: int): seq<string>
    decreases |visit|
  {
    if visit == [] then acc
    else
      var n := visit[0];
      if n.nodeType == Simple && Rejected(n, filters) then CollectVisit(acc, visit[1..], filters, offset)
      else
        var acc' := if n.nodeType == Simple then acc + [Entry(n)] else acc;
        if |acc'| > offset then acc' else CollectVisit(acc', visit[1..], filters, offset)
  }

  /** The for loop over the groups (formatters/ai_scriptless_mobile.py:35-54); `break` ends only one group. */
  function CollectGroups(acc: seq<string>, groups: seq<VisibilityGroup>, filters: Filters, offset: int): seq<string>
    decreases |groups|
  {
    if groups == [] then acc
    else
      var acc' := if GroupSkipped(groups[0], filters) then acc else CollectVisit(acc, Visit(groups[0].items), filters, offset);
      CollectGroups(acc', groups[1..], filters, offset)
  }

  function Min(a: int, b: int): int {
    if a <= b then a else b
  }

  /** Before the limit is passed, a group adds its matches up to one past `offset`. */
  lemma {:induction false} CollectVisitEarly(acc: seq<string>, visit: seq<TestNode>, filters: Filters, offset: int)
    requires |acc| <= offset
    ensures var m := Matches(visit, filters);
      CollectVisit(acc, visit, filters, offset) == acc + m[..Min(|m|, offset + 1 - |acc|)]
    decreases |visit|
  {
    var m := Matches(visit, filters);
    if visit == [] {
      assert acc + [] == acc;
    } else {
      var n := visit[0];
      var m' := Matches(visit[1..], filters);
      if n.nodeType == Simple && Rejected(n, filters) {
        CollectVisitEarly(acc, visit[1..], filters, offset);
      } else if n.nodeType == Simple {
        assert m == [Entry(n)] + m';
        if |acc| + 1 > offset {
          assert m[..1] == [Entry(n)];
        } else {
          CollectVisitEarly(acc + [Entry(n)], visit[1..], filters, offset);
          TakeAfterCons(acc, Entry(n), m', Min(|m'|, offset - |acc|));
        }
      } else {
        assert m == m';
        CollectVisitEarly(acc, visit[1..], filters, offset);
      }
    }
  }

  /** Taking `k + 1` entries of `[e] + m` is taking `e` and then `k` entries of `m`. */
  lemma TakeAfterCons(acc: seq<string>, e: string, m: seq<string>, k: int)
    requires 0 <= k <= |m|
    ensures acc + [e] + m[..k] == acc + ([e] + m)[..k + 1]
  {
    assert ([e] + m)[..k + 1] == [e] + m[..k];
  }

  /** After the limit is passed, a group adds at most its first match. */
  lemma {:induction false} CollectVisitLate(acc: seq<string>, visit: seq<TestNode>, filters: Filters, offset: int)
    requires |acc| > offset
    ensures var r, m := CollectVisit(acc, visit, filters, offset), Matches(visit, filters);
      |acc| <= |r| <= |acc| + 1 && |r| - |acc| <= |m| && r == acc + m[..|r| - |acc|]
    decreases |visit|
  {
    if visit == [] {
      assert acc + [] == acc;
    } else {
      var n := visit[0];
      if n.nodeType == Simple && Rejected(n, filters) {
        CollectVisitLate(acc, visit[1..], filters, offset);
      } else if n.nodeType == Simple {
        assert Matches(visit, filters)[..1] == [Entry(n)];
      } else {
        assert acc + Matches(visit, filters)[..0] == acc;
      }
    }
  }

  /** Once past the limit, later groups only append. */
  lemma {:induction false} CollectGroupsLate(acc: seq<string>, groups: seq<VisibilityGroup>, filters: Filters, offset: int)
    requires |acc| > offset
    ensures var r := CollectGroups(acc, groups, filters, offset); |acc| <= |r| && r[..|acc|] == acc
    decreases |groups|
  {
    if groups != [] {
      var acc' := if GroupSkipped(groups[0], filters) then acc else CollectVisit(acc, Visit(groups[0].items), filters, offset);
      if !GroupSkipped(groups[0], filters) {
        CollectVisitLate(acc, Visit(groups[0].items), filters, offset);
      }
      assert acc'[..|acc|] == acc;
      CollectGroupsLate(acc', groups[1..], filters, offset);
      var r := CollectGroups(acc', groups[1..], filters, offset);
      assert r[..|acc|] == r[..|acc'|][..|acc|];
    }
  }

  /**
   * The collected list agrees with the reference listing: all of it when it
   * has at most `offset` entries, and its first `offset + 1` entries otherwise.
   */
  lemma {:induction false} CollectGroupsPrefix(acc: seq<string>, groups: seq<VisibilityGroup>, filters: Filters, offset: int)
    requires |acc| <= offset
    ensures var r, full := CollectGroups(acc, groups, filters, offset), acc + AllMatches(groups, filters);
      (|full| <= offset ==> r == full) &&
      (|full| > offset ==> |r| > offset && r[..offset + 1] == full[..offset + 1])
    decreases |groups|
  {
    if groups == [] {
      assert acc + [] == acc;
    } else {
      var g := groups[0];
      var m := if GroupSkipped(g, filters) then [] else Matches(Visit(g.items), filters);
      var acc' := if GroupSkipped(g, filters) then acc else CollectVisit(acc, Visit(g.items), filters, offset);
      assert acc' == acc + m[..Min(|m|, offset + 1 - |acc|)] by {
        if GroupSkipped(g, filters) {
          assert acc + [][..0] == acc;
        } else {
          CollectVisitEarly(acc, Visit(g.items), filters, offset);
        }
      }
      if |acc + m| <= offset {
        assert m[..|m|] == m;
        CollectGroupsPrefix(acc', groups[1..], filters, offset);
      } else {
        CollectGroupsLate(acc', groups[1..], filters, offset);
      }
      PrefixStep(acc, m, AllMatches(groups[1..], filters), acc', CollectGroups(acc', groups[1..], filters, offset), offset);
    }
  }

  /**
   * One group of the prefix argument over plain sequences: the group adds
   * `m` to the listing and `acc'` to the collected list, and what the later
   * groups give (`rest` and `r`) is already known.
   */
  lemma PrefixStep(acc: seq<string>, m: seq<string>, rest: seq<string>, acc': seq<string>, r: seq<string>, offset: int)
    requires |acc| <= offset
    requires acc' == acc + m[..Min(|m|, offset + 1 - |acc|)]
    requires |acc + m| <= offset ==>
      (|acc' + rest| <= offset ==> r == acc' + rest) &&
      (|acc' + rest| > offset ==> |r| > offset && r[..offset + 1] == (acc' + rest)[..offset + 1])
    requires |acc + m| > offset ==> |acc'| <= |r| && r[..|acc'|] == acc'
    ensures var full := acc + (m + rest);
      (|full| <= offset ==> r == full) &&
      (|full| > offset ==> |r| > offset && r[..offset + 1] == full[..offset + 1])
  {
    var full := acc + (m + rest);
    if |acc + m| <= offset {
      assert m[..|m|] == m;
      assert full == acc' + rest;
    } else {
      assert full[..offset + 1] == (acc + m)[..offset + 1];
      assert (acc + m)[..offset + 1] == acc';
    }
  }

  /** Python's `s[start:stop]`: negative bounds count from the end, and both are clamped. */
  function PySlice<T>(s: seq<T>, start: int, stop: int): (r: seq<T>)
    ensures 0 <= start <= stop <= |s| ==> r == s[start..stop]
    ensures |r| <= |s|
  {
    var i := if start < 0 then Max(0, |s| + start) else Min(start, |s|);
    var j := if stop < 0 then Max(0, |s| + stop) else Min(stop, |s|);
    if i < j then s[i..j] else []
  }

  function Max(a: int, b: int): int {
    if a >= b then a else b
  }

  /** The collected entries before slicing. */
  function Collected(groups: seq<VisibilityGroup>, filters: Filters, pageSize: int, skip: int): seq<string> {
    CollectGroups([], groups, filters, skip + pageSize)
  }

  /**
   * The page as written (formatters/ai_scriptless_mobile.py:56-59): the slice
   * ends at `skip + page_size`, or one before the end of the collected list
   * when that list has at least `skip + page_size` entries.
   */
  function PageAsWritten(collected: seq<string>, pageSize: int, skip: int): seq<string> {
    var offset := skip + pageSize;
    var stop := if |collected| >= offset then |collected| - 1 else offset;
    PySlice(collected, skip, stop)
  }

  /** The page the paging was meant to give: `skip + page_size` as the end, always. */
  function PageCorrected(collected: seq<string>, pageSize: int, skip: int): seq<string> {
    PySlice(collected, skip, skip + pageSize)
  }

  /** `format_ai_scriptless_mobile_tests` as written. */
  function FormatTestsAsWritten(groups: seq<VisibilityGroup>, filters: Filters, pageSize: int, skip: int): seq<string> {
    PageAsWritten(Collected(groups, filters, pageSize, skip), pageSize, skip)
  }

  /** The lister with the corrected slice end. */
  function FormatTests(groups: seq<VisibilityGroup>, filters: Filters, pageSize: int, skip: int): seq<string> {
    PageCorrected(Collected(groups, filters, pageSize, skip), pageSize, skip)
  }

  /**
   * With the corrected end, the page is exactly the requested window of
   * the reference listing, for every non-negative skip and page size.
   */
  lemma FormatTestsWindow(groups: seq<VisibilityGroup>, filters: Filters, pageSize: int, skip: int)
    requires skip >= 0 && pageSize >= 0
    ensures FormatTests(groups, filters, pageSize, skip) == PySlice(AllMatches(groups, filters), skip, skip + pageSize)
    ensures var all := AllMatches(groups, filters);
      |FormatTests(groups, filters, pageSize, skip)| == Max(0, Min(|all|, skip + pageSize) - skip)
  {
    var c, all := Collected(groups, filters, pageSize, skip), AllMatches(groups, filters);
    assert FormatTests(groups, filters, pageSize, skip) == PageCorrected(c, pageSize, skip);
    CollectedAgrees(groups, filters, pageSize, skip);
    PageOfAgreeing(c, all, pageSize, skip);
  }

  /**
   * `c` is `all` when `all` has at most `offset` entries, and agrees with
   * its first `offset + 1` entries otherwise.
   */
  predicate AgreesUpTo(c: seq<string>, all: seq<string>, offset: int) {
    0 <= offset &&
    (|all| <= offset ==> c == all) &&
    (|all| > offset ==> |c| > offset && c[..offset + 1] == all[..offset + 1])
  }

  /** `CollectGroupsPrefix` from an empty list, the form the page lemmas use. */
  lemma CollectedAgrees(groups: seq<VisibilityGroup>, filters: Filters, pageSize: int, skip: int)
    requires skip >= 0 && pageSize >= 0
    ensures AgreesUpTo(Collected(groups, filters, pageSize, skip), AllMatches(groups, filters), skip + pageSize)
  {
    CollectGroupsPrefix([], groups, filters, skip + pageSize);
    assert [] + AllMatches(groups, filters) == AllMatches(groups, filters);
  }

  /** A collected list that agrees with the listing gives the listing's window as its page. */
  lemma PageOfAgreeing(c: seq<string>, all: seq<string>, pageSize: int, skip: int)
    requires skip >= 0 && pageSize >= 0
    requires AgreesUpTo(c, all, skip + pageSize)
    ensures PageCorrected(c, pageSize, skip) == PySlice(all, skip, skip + pageSize)
    ensures |PageCorrected(c, pageSize, skip)| == Max(0, Min(|all|, skip + pageSize) - skip)
  {
    var offset := skip + pageSize;
    if |all| > offset {
      assert c[skip..offset] == c[..offset + 1][skip..offset];
      assert all[skip..offset] == all[..offset + 1][skip..offset];
    }
    PySliceLength(all, skip, offset);
  }

  lemma PySliceLength<T>(s: seq<T>, start: int, stop: int)
    requires 0 <= start <= stop
    ensures |PySlice(s, start, stop)| == Max(0, Min(|s|, stop) - start)
  {
  }

  /**
   * As written, a listing that fills the page exactly loses its last entry:
   * `skip + page_size` matches give `page_size - 1` entries.
   */
  lemma ExactFillDropsLast(groups: seq<VisibilityGroup>, filters: Filters, pageSize: int, skip: int)
    requires skip >= 0 && pageSize >= 1
    requires |AllMatches(groups, filters)| == skip + pageSize
    ensures |FormatTestsAsWritten(groups, filters, pageSize, skip)| == pageSize - 1
    ensures |FormatTests(groups, filters, pageSize, skip)| == pageSize
  {
    CollectedAgrees(groups, filters, pageSize, skip);
    ExactFillPage(Collected(groups, filters, pageSize, skip), AllMatches(groups, filters), pageSize, skip);
  }

  /** The slice of a collected list that is exactly the listing, with `skip + page_size` entries. */
  lemma ExactFillPage(c: seq<string>, all: seq<string>, pageSize: int, skip: int)
    requires skip >= 0 && pageSize >= 1 && |all| == skip + pageSize
    requires AgreesUpTo(c, all, skip + pageSize)
    ensures |PageAsWritten(c, pageSize, skip)| == pageSize - 1
    ensures |PageCorrected(c, pageSize, skip)| == pageSize
  {
    PySliceLength(c, skip, |c| - 1);
    PySliceLength(c, skip, skip + pageSize);
  }

  /**
   * As written, a listing that ends before the page does gives the same page
   * as the corrected slice: the bad end is never used.
   */
  lemma ShortListingAsWritten(groups: seq<VisibilityGroup>, filters: Filters, pageSize: int, skip: int)
    requires skip >= 0 && pageSize >= 0
    requires |AllMatches(groups, filters)| < skip + pageSize
    ensures FormatTestsAsWritten(groups, filters, pageSize, skip) == FormatTests(groups, filters, pageSize, skip)
  {
    CollectedAgrees(groups, filters, pageSize, skip);
  }

  /**
   * As written, a listing that goes past the page gives at least `page_size`
   * entries, the first `page_size` of them the requested window; any further
   * ones belong to the next page.
   */
  lemma LongListingAsWritten(groups: seq<VisibilityGroup>, filters: Filters, pageSize: int, skip: int)
    requires skip >= 0 && pageSize >= 0
    requires |AllMatches(groups, filters)| > skip + pageSize
    ensures var page := FormatTestsAsWritten(groups, filters, pageSize, skip);
      |page| >= pageSize && page[..pageSize] == PySlice(AllMatches(groups, filters), skip, skip + pageSize)
  {
    CollectedAgrees(groups, filters, pageSize, skip);
    LongPage(Collected(groups, filters, pageSize, skip), AllMatches(groups, filters), pageSize, skip);
  }

  /** The as-written slice of a collected list that runs past the page. */
  lemma LongPage(c: seq<string>, all: seq<string>, pageSize: int, skip: int)
    requires skip >= 0 && pageSize >= 0 && |all| > skip + pageSize
    requires AgreesUpTo(c, all, skip + pageSize)
    ensures var page := PageAsWritten(c, pageSize, skip);
      |page| >= pageSize && page[..pageSize] == all[skip..skip + pageSize]
  {
    var offset := skip + pageSize;
    var page := PageAsWritten(c, pageSize, skip);
    assert page == c[skip..|c| - 1];
    assert page[..pageSize] == c[..offset + 1][skip..offset];
    assert all[skip..offset] == all[..offset + 1][skip..offset];
  }

  /** The smallest case: one plain test and a page of one gives an empty page. */
  lemma SingleTestEmptyPage(v: string, n: TestNode)
    requires n.nodeType == Simple
    ensures FormatTestsAsWritten([VisibilityGroup(v, [n])], Filters(None, None, None), 1, 0) == []
    ensures FormatTests([VisibilityGroup(v, [n])], Filters(None, None, None), 1, 0) == [Entry(n)]
  {
    var groups := [VisibilityGroup(v, [n])];
    var filters := Filters(None, None, None);
    VisitLeaves([n]);
    assert Reverse([n]) == [n];
    assert Matches([n], filters) == [Entry(n)];
    assert AllMatches(groups, filters) == [Entry(n)];
    ExactFillDropsLast(groups, filters, 1, 0);
    FormatTestsWindow(groups, filters, 1, 0);
  }

  /**
   * As written, a group after the limit was passed still adds an entry, so
   * two plain tests in one group and one in the next give a page of two
   * for a page size of one.
   */
  lemma LaterGroupOverflowsPage(v: string, w: string, a: TestNode, b: TestNode, c: TestNode)
    requires a.nodeType == Simple && b.nodeType == Simple && c.nodeType == Simple
    ensures var groups, filters := [VisibilityGroup(v, [a, b]), VisibilityGroup(w, [c])], Filters(None, None, None);
      FormatTestsAsWritten(groups, filters, 1, 0) == [Entry(b), Entry(a)] &&
      FormatTests(groups, filters, 1, 0) == [Entry(b)]
  {
    var filters := Filters(None, None, None);
    var groups := [VisibilityGroup(v, [a, b]), VisibilityGroup(w, [c])];
    VisitLeaves([a, b]);
    VisitLeaves([c]);
    assert Reverse([a, b]) == [b, a];
    assert Reverse([c]) == [c];
    assert [b, a][1..] == [a];
    assert [a][1..] == [];
    var s1 := CollectVisit([], [b, a], filters, 1);
    assert CollectVisit([], [b, a], filters, 1) == CollectVisit([Entry(b)], [a], filters, 1);
    assert s1 == [Entry(b), Entry(a)];
    var s2 := s1 + [Entry(c)];
    assert CollectVisit(s1, [c], filters, 1) == s2;
    assert groups[0].items == [a, b] && groups[1..][0].items == [c] && groups[1..][1..] == [];
    assert CollectGroups([], groups, filters, 1) == CollectGroups(s1, groups[1..], filters, 1);
    assert CollectGroups(s1, groups[1..], filters, 1) == CollectGroups(s2, [], filters, 1);
    assert Collected(groups, filters, 1, 0) == s2;
    assert s2[0..1] == [Entry(b)] && s2[0..2] == [Entry(b), Entry(a)];
  }

  /** One group's while loop (formatters/ai_scriptless_mobile.py:39-54). */
  method CollectGroupTests(acc: seq<string>, items: seq<TestNode>, filters: Filters, offset: int) returns (r: seq<string>)
    ensures r == CollectVisit(acc, Visit(items), filters, offset)
  {
    var stack := items;
    r := acc;
    while stack != []
      invariant CollectVisit(r, Visit(stack), filters, offset) == CollectVisit(acc, Visit(items), filters, offset)
      decreases |Visit(stack)|
    {
      PopStep(stack);
      var test := stack[|stack| - 1];
      var next := NextStack(stack);
      var v := [test] + Visit(next);
      assert v[0] == test && v[1..] == Visit(next);
      stack := stack[..|stack| - 1];
      if test.nodeType == Simple {
        if Rejected(test, filters) {
          continue;
        }
        r := r + [Entry(test)];
      } else if test.nodeType == Container {
        stack := stack + Reverse(test.children);
      }
      assert stack == next;
      if |r| > offset {
        break;
      }
    }
  }

  /** `format_ai_scriptless_mobile_tests` (formatters/ai_scriptless_mobile.py:28-59), as written. */
  method FormatMobileTests(groups: seq<VisibilityGroup>, filters: Filters, pageSize: int, skip: int) returns (page: seq<string>)
    ensures page == FormatTestsAsWritten(groups, filters, pageSize, skip)
  {
    var collected: seq<string> := [];
    var offset := skip + pageSize;
    for i := 0 to |groups|
      invariant CollectGroups(collected, groups[i..], filters, offset) == Collected(groups, filters, pageSize, skip)
    {
      assert groups[i..][0] == groups[i] && groups[i..][1..] == groups[i + 1..];
      if GroupSkipped(groups[i], filters) {
        continue;
      }
      collected := CollectGroupTests(collected, groups[i].items, filters, offset);
    }
    assert groups[|groups|..] == [];
    if |collected| >= offset {
      offset := |collected| - 1;
    }
    page := PySlice(collected, skip, offset);
  }
}
