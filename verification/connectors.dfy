/**
 * The dashed connector polylines the roadmap display draws over a laid-out
 * node list: from each module through the lessons that follow it to the
 * next module, and from the last module through its own lessons.
 */
module Connectors {
  import opened Common
  import opened RoadmapModel
  import opened Layout

  /** A polyline through the (x, y) positions of these nodes, in order. */
  type Polyline = seq<Node>

  /** The module nodes of `ns`, in order (`filter(type === 'module')`). */
  function ModuleNodes(ns: seq<Node>): seq<Node>
  {
    if |ns| == 0 then []
    else ModuleNodes(ns[..|ns| - 1]) + (if IsModuleNode(ns[|ns| - 1]) then [ns[|ns| - 1]] else [])
  }

  /** Lesson nodes of `ns` whose order lies strictly between `lo` and `hi`. */
  function LessonsBetween(ns: seq<Node>, lo: int, hi: int): seq<Node>
  {
    if |ns| == 0 then []
    else
      var last := ns[|ns| - 1];
      LessonsBetween(ns[..|ns| - 1], lo, hi)
        + (if IsLessonNode(last) && lo < last.order < hi then [last] else [])
  }

  /** Lesson nodes of `ns` whose order is above `lo`. */
  function LessonsAfter(ns: seq<Node>, lo: int): seq<Node>
  {
    if |ns| == 0 then []
    else
      var last := ns[|ns| - 1];
      LessonsAfter(ns[..|ns| - 1], lo) + (if IsLessonNode(last) && lo < last.order then [last] else [])
  }

  /**
   * The path for module node `mi`: to the next module through the lessons
   * between them (or directly), or, for the last module, through the
   * lessons after it, and no path when there are none.
   */
  function ModulePath(ns: seq<Node>, mods: seq<Node>, mi: nat): Option<Polyline>
    requires mi < |mods|
  {
    if mi < |mods| - 1 then
      var next := mods[mi + 1];
      var between := LessonsBetween(ns, mods[mi].order, next.order);
      if |between| > 0 then Some([mods[mi]] + between + [next])
      else Some([mods[mi], next])
    else
      var after := LessonsAfter(ns, mods[mi].order);
      if |after| > 0 then Some([mods[mi]] + after) else None
  }

  /** One entry per module node, only when there are at least two nodes. */
  function ConnectorPaths(ns: seq<Node>): (r: seq<Option<Polyline>>)
    ensures |ns| <= 1 ==> r == []
    ensures |ns| > 1 ==> |r| == |ModuleNodes(ns)|
  {
    if |ns| > 1 then
      var mods := ModuleNodes(ns);
      seq(|mods|, mi requires 0 <= mi < |mods| => ModulePath(ns, mods, mi))
    else []
  }

  // ---- filters over concatenations ----

  lemma {:induction false} ModuleNodesAppend(a: seq<Node>, b: seq<Node>)
    ensures ModuleNodes(a + b) == ModuleNodes(a) + ModuleNodes(b)
  {
    if |b| > 0 {
      assert (a + b)[..|a + b| - 1] == a + b[..|b| - 1];
      ModuleNodesAppend(a, b[..|b| - 1]);
    } else {
      assert a + b == a;
    }
  }

  lemma {:induction false} LessonsBetweenAppend(a: seq<Node>, b: seq<Node>, lo: int, hi: int)
    ensures LessonsBetween(a + b, lo, hi) == LessonsBetween(a, lo, hi) + LessonsBetween(b, lo, hi)
  {
    if |b| > 0 {
      assert (a + b)[..|a + b| - 1] == a + b[..|b| - 1];
      LessonsBetweenAppend(a, b[..|b| - 1], lo, hi);
    } else {
      assert a + b == a;
    }
  }

  lemma {:induction false} LessonsAfterAppend(a: seq<Node>, b: seq<Node>, lo: int)
    ensures LessonsAfter(a + b, lo) == LessonsAfter(a, lo) + LessonsAfter(b, lo)
  {
    if |b| > 0 {
      assert (a + b)[..|a + b| - 1] == a + b[..|b| - 1];
      LessonsAfterAppend(a, b[..|b| - 1], lo);
    } else {
      assert a + b == a;
    }
  }

  /** Every node of `ns` has order at most `bound`. */
  predicate OrdersAtMost(ns: seq<Node>, bound: int)
  {
    forall j :: 0 <= j < |ns| ==> ns[j].order <= bound
  }

  /** Every node of `ns` has order at least `bound`. */
  predicate OrdersAtLeast(ns: seq<Node>, bound: int)
  {
    forall j :: 0 <= j < |ns| ==> bound <= ns[j].order
  }

  /** Every node of `ns` is a lesson whose order lies strictly between `lo` and `hi`. */
  predicate LessonsWithin(ns: seq<Node>, lo: int, hi: int)
  {
    forall j :: 0 <= j < |ns| ==> IsLessonNode(ns[j]) && lo < ns[j].order < hi
  }

  lemma {:induction false} NoLessonsAtOrBelow(ns: seq<Node>, lo: int, hi: int)
    requires OrdersAtMost(ns, lo)
    ensures LessonsBetween(ns, lo, hi) == [] && LessonsAfter(ns, lo) == []
  {
    if |ns| > 0 {
      NoLessonsAtOrBelow(ns[..|ns| - 1], lo, hi);
    }
  }

  lemma {:induction false} NoLessonsAtOrAbove(ns: seq<Node>, lo: int, hi: int)
    requires OrdersAtLeast(ns, hi)
    ensures LessonsBetween(ns, lo, hi) == []
  {
    if |ns| > 0 {
      NoLessonsAtOrAbove(ns[..|ns| - 1], lo, hi);
    }
  }

  lemma {:induction false} AllLessonsKept(ns: seq<Node>, lo: int, hi: int)
    requires LessonsWithin(ns, lo, hi)
    ensures LessonsBetween(ns, lo, hi) == ns && LessonsAfter(ns, lo) == ns
  {
    if |ns| > 0 {
      var init := ns[..|ns| - 1];
      assert LessonsWithin(init, lo, hi) by {
        assert forall j :: 0 <= j < |init| ==> init[j] == ns[j];
      }
      AllLessonsKept(init, lo, hi);
      assert ns == init + [ns[|ns| - 1]];
    }
  }

  /** The between-filter keeps only lessons strictly inside the window. */
  lemma {:induction false} LessonsBetweenSound(ns: seq<Node>, lo: int, hi: int)
    ensures LessonsWithin(LessonsBetween(ns, lo, hi), lo, hi)
  {
    if |ns| > 0 {
      LessonsBetweenSound(ns[..|ns| - 1], lo, hi);
    }
  }

  /**
   * For any node list of at least two nodes, each module node but the last
   * gets a polyline that starts at it, ends at the next module node, and
   * passes only through lessons ordered strictly between the two.
   */
  lemma ConnectorsJoinConsecutiveModules(ns: seq<Node>, mi: nat)
    requires |ns| > 1 && mi + 1 < |ModuleNodes(ns)|
    ensures var p := ConnectorPaths(ns)[mi];
      var mods := ModuleNodes(ns);
      && p.Some? && |p.value| >= 2
      && p.value[0] == mods[mi] && p.value[|p.value| - 1] == mods[mi + 1]
      && LessonsWithin(p.value[1..|p.value| - 1], mods[mi].order, mods[mi + 1].order)
  {
    var mods := ModuleNodes(ns);
    var between := LessonsBetween(ns, mods[mi].order, mods[mi + 1].order);
    LessonsBetweenSound(ns, mods[mi].order, mods[mi + 1].order);
    var path := [mods[mi]] + between + [mods[mi + 1]];
    assert path[1..|path| - 1] == between;
    assert ConnectorPaths(ns)[mi] == ModulePath(ns, mods, mi);
  }

  lemma {:induction false} NoModulesAmongLessons(ns: seq<Node>)
    requires forall j :: 0 <= j < |ns| ==> IsLessonNode(ns[j])
    ensures ModuleNodes(ns) == []
  {
    if |ns| > 0 {
      NoModulesAmongLessons(ns[..|ns| - 1]);
    }
  }

  // ---- connectors of the reference layout ----

  /** The node of module `i` in the layout. */
  function ModuleNodeOf(ms: seq<Module>, i: nat, centerX: real): Node
    requires i < |ms|
  {
    ModuleNode(ms[i], i, centerX, ModuleStart(ms, i))
  }

  /** The nodes of module `i`'s shown lessons in the layout. */
  function LessonNodesOf(ms: seq<Module>, i: nat, centerX: real): seq<Node>
    requires i < |ms|
  {
    LessonNodes(ms[i], i, centerX, ModuleStart(ms, i) + 1, Shown(ms[i]))
  }

  /** The module nodes of the layout are exactly the modules, in order. */
  lemma {:induction false} ModuleNodesOfLayout(ms: seq<Module>, n: nat, centerX: real)
    requires n <= |ms|
    ensures ModuleNodes(LayoutUpTo(ms, n, centerX))
            == seq(n, i requires 0 <= i < n => ModuleNodeOf(ms, i, centerX))
  {
    if n > 0 {
      ModuleNodesOfLayout(ms, n - 1, centerX);
      var before := LayoutUpTo(ms, n - 1, centerX);
      LayoutSize(ms, n - 1, centerX);
      var block := Block(ms[n - 1], n - 1, centerX, ModuleStart(ms, n - 1));
      assert LayoutUpTo(ms, n, centerX) == before + block;
      ModuleNodesAppend(before, block);
      ModuleNodesOfBlock(ms, n - 1, centerX);
      ModuleNodeSeqSnoc(ms, n, centerX);
    }
  }

  /** A module's block holds exactly one module node: its own. */
  lemma ModuleNodesOfBlock(ms: seq<Module>, i: nat, centerX: real)
    requires i < |ms|
    ensures ModuleNodes(Block(ms[i], i, centerX, ModuleStart(ms, i))) == [ModuleNodeOf(ms, i, centerX)]
  {
    var head := ModuleNodeOf(ms, i, centerX);
    var lessons := LessonNodesOf(ms, i, centerX);
    assert Block(ms[i], i, centerX, ModuleStart(ms, i)) == [head] + lessons;
    ModuleNodesAppend([head], lessons);
    LessonNodesNumbered(ms[i], i, centerX, ModuleStart(ms, i) + 1, Shown(ms[i]));
    NoModulesAmongLessons(lessons);
    assert ModuleNodes([head]) == [head] by {
      assert [head][..0] == [];
    }
  }

  lemma ModuleNodeSeqSnoc(ms: seq<Module>, n: nat, centerX: real)
    requires 0 < n <= |ms|
    ensures seq(n, i requires 0 <= i < n => ModuleNodeOf(ms, i, centerX))
            == seq(n - 1, i requires 0 <= i < n - 1 => ModuleNodeOf(ms, i, centerX))
               + [ModuleNodeOf(ms, n - 1, centerX)]
  {
  }

  /** In a list whose orders are its indices, orders up to `s` precede index `s + 1`, and from `e` on follow. */
  lemma SlicesAroundOrders(L: seq<Node>, s: nat, e: nat)
    requires s < e <= |L|
    requires forall j :: 0 <= j < |L| ==> L[j].order == j
    ensures OrdersAtMost(L[..s + 1], s) && OrdersAtLeast(L[e..], e)
  {
    var pre, post := L[..s + 1], L[e..];
    assert forall j :: 0 <= j < |pre| ==> pre[j] == L[j];
    assert forall j :: 0 <= j < |post| ==> post[j] == L[e + j];
  }

  /**
   * Splits the layout around module `i`'s lessons: what precedes them has
   * order at most module `i`'s, what follows has order at least the next
   * module's start.
   */
  lemma SplitAroundLessons(ms: seq<Module>, i: nat, centerX: real)
    requires i < |ms|
    ensures var L := NodeLayout(ms, centerX);
      var s, e := ModuleStart(ms, i), ModuleStart(ms, i + 1);
      && s < e <= |L|
      && L == L[..s + 1] + LessonNodesOf(ms, i, centerX) + L[e..]
      && OrdersAtMost(L[..s + 1], s)
      && OrdersAtLeast(L[e..], e)
      && LessonsWithin(LessonNodesOf(ms, i, centerX), s, e)
  {
    var L := NodeLayout(ms, centerX);
    var s, e := ModuleStart(ms, i), ModuleStart(ms, i + 1);
    BlockInLayout(ms, i, centerX);
    OrdersAreIndices(ms, |ms|, centerX);
    var block := Block(ms[i], i, centerX, s);
    assert L[s..e] == block;
    LessonNodesNumbered(ms[i], i, centerX, s + 1, Shown(ms[i]));
    assert L[s + 1..e] == LessonNodesOf(ms, i, centerX) by {
      assert L[s + 1..e] == block[1..];
    }
    assert L == L[..s + 1] + L[s + 1..e] + L[e..];
    SlicesAroundOrders(L, s, e);
  }

  /** With more than one node, one connector entry per module. */
  lemma ConnectorCount(ms: seq<Module>, centerX: real)
    ensures |NodeLayout(ms, centerX)| <= 1 ==> ConnectorPaths(NodeLayout(ms, centerX)) == []
    ensures |NodeLayout(ms, centerX)| > 1 ==> |ConnectorPaths(NodeLayout(ms, centerX))| == |ms|
  {
    ModuleNodesOfLayout(ms, |ms|, centerX);
  }

  /** Module `i` (not the last) is joined through its shown lessons to module `i + 1`. */
  lemma ConnectorOfModule(ms: seq<Module>, centerX: real, i: nat)
    requires |NodeLayout(ms, centerX)| > 1 && i < |ms| - 1
    ensures |ConnectorPaths(NodeLayout(ms, centerX))| == |ms|
    ensures ConnectorPaths(NodeLayout(ms, centerX))[i]
            == Some([ModuleNodeOf(ms, i, centerX)] + LessonNodesOf(ms, i, centerX)
                    + [ModuleNodeOf(ms, i + 1, centerX)])
  {
    var L := NodeLayout(ms, centerX);
    ModuleNodesOfLayout(ms, |ms|, centerX);
    var mods := ModuleNodes(L);
    var here, next := ModuleNodeOf(ms, i, centerX), ModuleNodeOf(ms, i + 1, centerX);
    assert mods[i] == here && mods[i + 1] == next;
    assert ConnectorPaths(L)[i] == ModulePath(L, mods, i);
    LessonsBetweenModules(ms, i, centerX);
    var between := LessonsBetween(L, here.order, next.order);
    assert between == LessonNodesOf(ms, i, centerX);
    if |between| == 0 {
      assert [here] + between + [next] == [here, next];
    }
  }

  /** The last module's polyline runs through its shown lessons; none if it has no lessons. */
  lemma ConnectorOfLastModule(ms: seq<Module>, centerX: real)
    requires |NodeLayout(ms, centerX)| > 1 && |ms| > 0
    ensures |ConnectorPaths(NodeLayout(ms, centerX))| == |ms|
    ensures ConnectorPaths(NodeLayout(ms, centerX))[|ms| - 1]
            == (if |ms[|ms| - 1].lessons| == 0 then None
                else Some([ModuleNodeOf(ms, |ms| - 1, centerX)] + LessonNodesOf(ms, |ms| - 1, centerX)))
  {
    var L := NodeLayout(ms, centerX);
    var i := |ms| - 1;
    ModuleNodesOfLayout(ms, |ms|, centerX);
    var mods := ModuleNodes(L);
    assert mods[i] == ModuleNodeOf(ms, i, centerX);
    assert ConnectorPaths(L)[i] == ModulePath(L, mods, i);
    LessonsAfterLastModule(ms, centerX);
  }

  /** Between module `i` and the next, the filter picks out exactly module `i`'s shown lessons. */
  lemma LessonsBetweenModules(ms: seq<Module>, i: nat, centerX: real)
    requires i < |ms| - 1
    ensures LessonsBetween(NodeLayout(ms, centerX), ModuleStart(ms, i), ModuleStart(ms, i + 1))
            == LessonNodesOf(ms, i, centerX)
  {
    var L := NodeLayout(ms, centerX);
    var s, e := ModuleStart(ms, i), ModuleStart(ms, i + 1);
    SplitAroundLessons(ms, i, centerX);
    var pre, mid, post := L[..s + 1], LessonNodesOf(ms, i, centerX), L[e..];
    NoLessonsAtOrBelow(pre, s, e);
    NoLessonsAtOrAbove(post, s, e);
    AllLessonsKept(mid, s, e);
    LessonsBetweenAppend(pre + mid, post, s, e);
    LessonsBetweenAppend(pre, mid, s, e);
  }

  /** After the last module, the filter picks out exactly its shown lessons. */
  lemma LessonsAfterLastModule(ms: seq<Module>, centerX: real)
    requires |ms| > 0
    ensures LessonsAfter(NodeLayout(ms, centerX), ModuleStart(ms, |ms| - 1))
            == LessonNodesOf(ms, |ms| - 1, centerX)
  {
    var i := |ms| - 1;
    var L := NodeLayout(ms, centerX);
    var s, e := ModuleStart(ms, i), ModuleStart(ms, i + 1);
    SplitAroundLessons(ms, i, centerX);
    LayoutSize(ms, |ms|, centerX);
    assert e == |L|;
    var pre, mid := L[..s + 1], LessonNodesOf(ms, i, centerX);
    assert L == pre + mid;
    NoLessonsAtOrBelow(pre, s, e);
    AllLessonsKept(mid, s, e);
    LessonsAfterAppend(pre, mid, s);
  }
}
