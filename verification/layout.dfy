/**
 * The roadmap graph layout of the roadmap display: every module becomes a
 * node on a vertical zig-zag, followed by the nodes of the lessons that fit
 * below it before the next module's slot, each node numbered by a running
 * `order`.
 */
module Layout {
  import opened RoadmapModel

  const StartY: int := 120
  const ModuleVerticalSpacing: int := 250
  const LessonVerticalSpacing: int := 60
  /** Vertical gap between a module and its first lesson. */
  const LessonTopOffset: int := 80
  /** Room a lesson must leave above the next module's slot. */
  const LessonClearance: int := 40
  const ModuleZigZag: real := 80.0
  const LessonZigZag: real := 30.0
  /** How many lessons of one module fit between two module slots. */
  const LessonsPerModuleShown: nat := 3

  datatype NodeItem = ModuleItem(mod: Module) | LessonItem(lesson: Lesson)

  /** A positioned node; `order` is its place in the drawing sequence. */
  datatype Node = Node(x: real, y: int, item: NodeItem, order: int)

  predicate IsModuleNode(n: Node) { n.item.ModuleItem? }
  predicate IsLessonNode(n: Node) { n.item.LessonItem? }

  /**
   * Horizontal centre of roadmap column `index` out of `count` columns
   * sharing a container `width` wide.
   */
  function CenterX(width: real, count: nat, index: nat): (cx: real)
    requires index < count
    ensures cx * (2 * count) as real == width * (2 * index + 1) as real
  {
    var roadmapWidth := width / count as real;
    roadmapWidth * index as real + roadmapWidth / 2.0
  }

  function ModuleY(i: nat): int
  {
    StartY + i * ModuleVerticalSpacing
  }

  function ModuleX(centerX: real, i: nat): real
  {
    var offsetX := if i % 2 == 0 then -ModuleZigZag else ModuleZigZag;
    centerX + (if i == 0 then 0.0 else offsetX)
  }

  function LessonY(moduleY: int, k: nat): int
  {
    moduleY + LessonTopOffset + k * LessonVerticalSpacing
  }

  function LessonX(moduleX: real, k: nat): real
  {
    moduleX + (if k % 2 == 0 then -LessonZigZag else LessonZigZag)
  }

  /** The lower bound the source computes for module `i`'s lessons. */
  function NextModuleY(i: nat, count: nat): int
  {
    if i == count - 1 then ModuleY(i) + ModuleVerticalSpacing
    else StartY + (i + 1) * ModuleVerticalSpacing
  }

  /** The source's space test for lesson `k` of module `i` of `count`. */
  predicate LessonFits(i: nat, count: nat, k: nat)
  {
    LessonY(ModuleY(i), k) < NextModuleY(i, count) - LessonClearance
  }

  /**
   * The bound is one module slot below for every module, the last one
   * included, so exactly the first three lessons fit.
   */
  lemma LessonFitsIffAmongFirstThree(i: nat, count: nat, k: nat)
    ensures NextModuleY(i, count) == ModuleY(i + 1)
    ensures LessonFits(i, count, k) <==> k < LessonsPerModuleShown
  {
  }

  /** Number of lessons of `m` that appear in the layout. */
  function Shown(m: Module): nat
  {
    if |m.lessons| < LessonsPerModuleShown then |m.lessons| else LessonsPerModuleShown
  }

  function ModuleNode(m: Module, i: nat, centerX: real, order: int): Node
  {
    Node(ModuleX(centerX, i), ModuleY(i), ModuleItem(m), order)
  }

  function LessonNode(m: Module, i: nat, centerX: real, k: nat, order: int): Node
    requires k < |m.lessons|
  {
    Node(LessonX(ModuleX(centerX, i), k), LessonY(ModuleY(i), k), LessonItem(m.lessons[k]), order)
  }

  /** Nodes of the first `n` lessons of module `i`, numbered from `base`. */
  function LessonNodes(m: Module, i: nat, centerX: real, base: int, n: nat): (r: seq<Node>)
    requires n <= |m.lessons|
    ensures |r| == n
  {
    seq(n, k requires 0 <= k < n => LessonNode(m, i, centerX, k, base + k))
  }

  /** Lesson nodes are lessons, numbered consecutively from `base`. */
  lemma LessonNodesNumbered(m: Module, i: nat, centerX: real, base: int, n: nat)
    requires n <= |m.lessons|
    ensures forall j :: 0 <= j < n ==>
      IsLessonNode(LessonNodes(m, i, centerX, base, n)[j])
      && LessonNodes(m, i, centerX, base, n)[j].order == base + j
  {
    forall j | 0 <= j < n
      ensures LessonNodes(m, i, centerX, base, n)[j] == LessonNode(m, i, centerX, j, base + j)
    {
    }
  }

  /** Module `i` followed by its shown lessons, numbered from `start`. */
  function Block(m: Module, i: nat, centerX: real, start: int): seq<Node>
  {
    [ModuleNode(m, i, centerX, start)] + LessonNodes(m, i, centerX, start + 1, Shown(m))
  }

  /** The layout of the first `n` modules: their blocks, one after another. */
  function LayoutUpTo(ms: seq<Module>, n: nat, centerX: real): seq<Node>
    requires n <= |ms|
  {
    if n == 0 then []
    else
      var before := LayoutUpTo(ms, n - 1, centerX);
      before + Block(ms[n - 1], n - 1, centerX, |before|)
  }

  /** The reference layout of a whole roadmap. */
  function NodeLayout(ms: seq<Module>, centerX: real): seq<Node>
  {
    LayoutUpTo(ms, |ms|, centerX)
  }

  /** Number of nodes of the first `n` modules: each module and its shown lessons. */
  function NodeCount(ms: seq<Module>, n: nat): nat
    requires n <= |ms|
  {
    if n == 0 then 0 else NodeCount(ms, n - 1) + 1 + Shown(ms[n - 1])
  }

  /** Index (and order) of module `i`'s node in the layout. */
  function ModuleStart(ms: seq<Module>, i: nat): nat
    requires i <= |ms|
  {
    NodeCount(ms, i)
  }

  /**
   * `calculateNodePositions` for roadmap `roadmapIndex` of the `count`
   * drawn side by side in a container `width` wide: walks the modules and,
   * inside each, all of its lessons, keeping a lesson only when it passes
   * the space test.
   */
  method CalculateNodePositions(roadmapIndex: nat, ms: seq<Module>, width: real, count: nat)
    returns (result: seq<Node>)
    requires roadmapIndex < count
    ensures result == NodeLayout(ms, CenterX(width, count, roadmapIndex))
    ensures forall j :: 0 <= j < |result| ==> result[j].order == j
  {
    var roadmapWidth := width / count as real;
    var centerX := roadmapWidth * roadmapIndex as real + roadmapWidth / 2.0;
    assert centerX == CenterX(width, count, roadmapIndex);
    result := [];
    var nodeOrder := 0;
    var moduleIndex := 0;
    while moduleIndex < |ms|
      invariant moduleIndex <= |ms|
      invariant result == LayoutUpTo(ms, moduleIndex, centerX)
      invariant nodeOrder == |result|
    {
      var m := ms[moduleIndex];
      var moduleY := StartY + moduleIndex * ModuleVerticalSpacing;
      var offsetX := if moduleIndex % 2 == 0 then -ModuleZigZag else ModuleZigZag;
      var moduleX := centerX + (if moduleIndex == 0 then 0.0 else offsetX);
      var before := result;
      result := result + [Node(moduleX, moduleY, ModuleItem(m), nodeOrder)];
      nodeOrder := nodeOrder + 1;

      var isLastModule := moduleIndex == |ms| - 1;
      var nextModuleY := if isLastModule then moduleY + ModuleVerticalSpacing
                         else StartY + (moduleIndex + 1) * ModuleVerticalSpacing;
      result := PlaceLessons(m, moduleIndex, |ms|, centerX, moduleX, moduleY, nextModuleY, result);
      nodeOrder := |result|;
      moduleIndex := moduleIndex + 1;
    }
    OrdersAreIndices(ms, |ms|, centerX);
  }

  /**
   * The inner loop of `calculateNodePositions` over module `i`'s lessons:
   * appends, numbered on from the list's length, exactly the lessons that
   * pass the space test.
   */
  method PlaceLessons(m: Module, i: nat, count: nat, centerX: real, moduleX: real, moduleY: int,
                      nextModuleY: int, nodes: seq<Node>)
    returns (out: seq<Node>)
    requires moduleX == ModuleX(centerX, i) && moduleY == ModuleY(i) && nextModuleY == NextModuleY(i, count)
    ensures out == nodes + LessonNodes(m, i, centerX, |nodes|, Shown(m))
  {
    out := nodes;
    var nodeOrder := |nodes|;
    var lessonIndex := 0;
    while lessonIndex < |m.lessons|
      invariant lessonIndex <= |m.lessons|
      invariant out == nodes + LessonNodes(m, i, centerX, |nodes|,
                                           if lessonIndex < LessonsPerModuleShown then lessonIndex else LessonsPerModuleShown)
      invariant nodeOrder == |out|
    {
      var lessonY := moduleY + LessonTopOffset + lessonIndex * LessonVerticalSpacing;
      LessonFitsIffAmongFirstThree(i, count, lessonIndex);
      if lessonY < nextModuleY - LessonClearance {
        var lessonOffsetX := if lessonIndex % 2 == 0 then -LessonZigZag else LessonZigZag;
        var lessonX := moduleX + lessonOffsetX;
        LessonNodesSnoc(m, i, centerX, |nodes|, lessonIndex);
        out := out + [Node(lessonX, lessonY, LessonItem(m.lessons[lessonIndex]), nodeOrder)];
        nodeOrder := nodeOrder + 1;
      }
      lessonIndex := lessonIndex + 1;
    }
  }

  lemma LessonNodesSnoc(m: Module, i: nat, centerX: real, base: int, n: nat)
    requires n < |m.lessons|
    ensures LessonNodes(m, i, centerX, base, n + 1)
            == LessonNodes(m, i, centerX, base, n) + [LessonNode(m, i, centerX, n, base + n)]
  {
  }

  lemma {:induction false} LayoutSize(ms: seq<Module>, n: nat, centerX: real)
    requires n <= |ms|
    ensures |LayoutUpTo(ms, n, centerX)| == NodeCount(ms, n)
  {
    if n > 0 {
      LayoutSize(ms, n - 1, centerX);
    }
  }

  /**
   * Every node's order is its position: the orders are exactly `0..n-1`,
   * so the list is already sorted by order and the final sort leaves it
   * unchanged.
   */
  lemma {:induction false} OrdersAreIndices(ms: seq<Module>, n: nat, centerX: real)
    requires n <= |ms|
    ensures forall j :: 0 <= j < |LayoutUpTo(ms, n, centerX)| ==> LayoutUpTo(ms, n, centerX)[j].order == j
  {
    if n > 0 {
      OrdersAreIndices(ms, n - 1, centerX);
      var before := LayoutUpTo(ms, n - 1, centerX);
      var block := Block(ms[n - 1], n - 1, centerX, |before|);
      forall j | 0 <= j < |block|
        ensures block[j].order == |before| + j
      {
        if j > 0 {
          var ls := LessonNodes(ms[n - 1], n - 1, centerX, |before| + 1, Shown(ms[n - 1]));
          assert block[j] == ls[j - 1];
          assert ls[j - 1] == LessonNode(ms[n - 1], n - 1, centerX, j - 1, |before| + 1 + (j - 1));
        }
      }
    }
  }

  /** The whole layout is strictly increasing in `order`. */
  lemma SortedByOrder(ms: seq<Module>, centerX: real)
    ensures forall i, j :: 0 <= i < j < |NodeLayout(ms, centerX)| ==>
              NodeLayout(ms, centerX)[i].order < NodeLayout(ms, centerX)[j].order
  {
    OrdersAreIndices(ms, |ms|, centerX);
  }

  /** Laying out more modules only extends the node list. */
  lemma {:induction false} LayoutPrefix(ms: seq<Module>, i: nat, n: nat, centerX: real)
    requires i <= n <= |ms|
    ensures LayoutUpTo(ms, i, centerX) <= LayoutUpTo(ms, n, centerX)
  {
    if i < n {
      LayoutPrefix(ms, i, n - 1, centerX);
    }
  }

  /** The nodes of module `i` form one contiguous block of the layout. */
  lemma BlockInLayout(ms: seq<Module>, i: nat, centerX: real)
    requires i < |ms|
    ensures ModuleStart(ms, i) < ModuleStart(ms, i + 1) <= |NodeLayout(ms, centerX)|
    ensures NodeLayout(ms, centerX)[ModuleStart(ms, i)..ModuleStart(ms, i + 1)]
            == Block(ms[i], i, centerX, ModuleStart(ms, i))
  {
    LayoutPrefix(ms, i + 1, |ms|, centerX);
    LayoutSize(ms, i, centerX);
    LayoutSize(ms, i + 1, centerX);
  }

  /** Module `i` sits at `y = 120 + 250 i`, zig-zagging 80 around the column centre. */
  lemma ModulePlacement(ms: seq<Module>, centerX: real, i: nat)
    requires i < |ms|
    ensures ModuleStart(ms, i) < |NodeLayout(ms, centerX)|
    ensures var n := NodeLayout(ms, centerX)[ModuleStart(ms, i)];
      && n.item == ModuleItem(ms[i])
      && n.order == ModuleStart(ms, i)
      && n.y == 120 + 250 * i
      && n.x == (if i == 0 then centerX else if i % 2 == 0 then centerX - 80.0 else centerX + 80.0)
  {
    BlockInLayout(ms, i, centerX);
    var s := ModuleStart(ms, i);
    assert NodeLayout(ms, centerX)[s] == Block(ms[i], i, centerX, s)[0];
  }

  /**
   * Lesson `k < 3` of module `i` follows its module at `y = moduleY + 80 + 60 k`,
   * offset 30 left (even `k`) or right (odd `k`), strictly inside the
   * module's slot; the block holds no other lessons.
   */
  lemma LessonPlacement(ms: seq<Module>, centerX: real, i: nat, k: nat)
    requires i < |ms| && k < |ms[i].lessons|
    ensures ModuleStart(ms, i + 1) == ModuleStart(ms, i) + 1 + (if |ms[i].lessons| < 3 then |ms[i].lessons| else 3)
    ensures ModuleStart(ms, i + 1) <= |NodeLayout(ms, centerX)|
    ensures k < 3 ==>
      var n := NodeLayout(ms, centerX)[ModuleStart(ms, i) + 1 + k];
      var moduleX := NodeLayout(ms, centerX)[ModuleStart(ms, i)].x;
      && n.item == LessonItem(ms[i].lessons[k])
      && n.order == ModuleStart(ms, i) + 1 + k
      && n.y == 120 + 250 * i + 80 + 60 * k
      && n.x == (if k % 2 == 0 then moduleX - 30.0 else moduleX + 30.0)
      && ModuleY(i) < n.y < ModuleY(i + 1) - LessonClearance
  {
    BlockInLayout(ms, i, centerX);
    var s := ModuleStart(ms, i);
    if k < 3 {
      assert NodeLayout(ms, centerX)[s + 1 + k] == Block(ms[i], i, centerX, s)[1 + k];
      assert NodeLayout(ms, centerX)[s] == Block(ms[i], i, centerX, s)[0];
    }
  }

  /** The layout holds each module once and at most its first three lessons. */
  lemma {:induction false} LayoutCount(ms: seq<Module>, n: nat, centerX: real)
    requires n <= |ms|
    ensures |LayoutUpTo(ms, n, centerX)| == n + ShownTotal(ms, n)
    ensures ShownTotal(ms, n) <= 3 * n
  {
    LayoutSize(ms, n, centerX);
    if n > 0 {
      LayoutCount(ms, n - 1, centerX);
    }
  }

  /** Sum over the first `n` modules of `min(#lessons, 3)`. */
  function ShownTotal(ms: seq<Module>, n: nat): nat
    requires n <= |ms|
  {
    if n == 0 then 0
    else ShownTotal(ms, n - 1) + (if |ms[n - 1].lessons| < 3 then |ms[n - 1].lessons| else 3)
  }

  /** A module comes before its own lessons and before every later module. */
  lemma {:induction false} ModulesPrecede(ms: seq<Module>, i: nat, j: nat)
    requires i < j <= |ms|
    ensures ModuleStart(ms, i) + Shown(ms[i]) < ModuleStart(ms, j)
  {
    if j > i + 1 {
      ModulesPrecede(ms, i, j - 1);
    }
  }
}
