/**
 * The combo registry and the expansion of combo order lines into their
 * components (src/lib/combo-products.ts).
 *
 * A combo design is reported as the designs it bundles: each combo line is
 * replaced by one line per component, with the quantity scaled by that
 * component's multiplier. Expansion goes one level deep only.
 */
module ComboProducts {
  import opened Wrappers
  import opened OrderTypes

  /** `ComboComponentInfo`: one component of a combo and its quantity multiplier. */
  datatype ComponentInfo = ComponentInfo(component: string, multiplier: int)

  /** A row of the `shirt_combo_components` table. */
  datatype ComboEdge = ComboEdge(comboId: string, componentId: string, multiplier: int)

  /** `ComboMap`: combo design id to its components, in the order the rows were read. */
  type ComboMap = map<string, seq<ComponentInfo>>

  function Info(e: ComboEdge): ComponentInfo {
    ComponentInfo(e.componentId, e.multiplier)
  }

  // ---------------------------------------------------------------------------
  // Grouping the edge rows into a registry
  // ---------------------------------------------------------------------------

  /** The components the rows list for combo `c`, in row order. */
  function ComponentsOf(edges: seq<ComboEdge>, c: string): seq<ComponentInfo>
  {
    if edges == [] then []
    else
      var e := edges[|edges| - 1];
      ComponentsOf(edges[..|edges| - 1], c) + (if e.comboId == c then [Info(e)] else [])
  }

  /** The combo ids named by at least one row. */
  function ComboIds(edges: seq<ComboEdge>): set<string> {
    set e | e in edges :: e.comboId
  }

  /** The registry the rows describe: one key per named combo, its rows' components in order. */
  function Grouped(edges: seq<ComboEdge>): ComboMap {
    map c | c in ComboIds(edges) :: ComponentsOf(edges, c)
  }

  /** Concatenating row lists concatenates each combo's component list: row order is kept. */
  lemma {:induction false} ComponentsOfAppend(a: seq<ComboEdge>, b: seq<ComboEdge>, c: string)
    ensures ComponentsOf(a + b, c) == ComponentsOf(a, c) + ComponentsOf(b, c)
    decreases |b|
  {
    if b == [] {
      assert a + b == a;
    } else {
      var b' := b[..|b| - 1];
      assert (a + b)[..|a + b| - 1] == a + b';
      ComponentsOfAppend(a, b', c);
    }
  }

  /** A combo's component list is non-empty exactly when some row names that combo. */
  lemma {:induction false} ComponentsOfNonEmpty(edges: seq<ComboEdge>, c: string)
    ensures |ComponentsOf(edges, c)| > 0 <==> exists i :: 0 <= i < |edges| && edges[i].comboId == c
  {
    if edges != [] {
      var prefix := edges[..|edges| - 1];
      ComponentsOfNonEmpty(prefix, c);
      if exists i :: 0 <= i < |edges| && edges[i].comboId == c {
        var i :| 0 <= i < |edges| && edges[i].comboId == c;
        if i < |prefix| {
          assert prefix[i].comboId == c;
        }
      }
      if exists i :: 0 <= i < |prefix| && prefix[i].comboId == c {
        var i :| 0 <= i < |prefix| && prefix[i].comboId == c;
        assert edges[i].comboId == c;
      }
    }
  }

  /** Each row lands in its combo's list, at the position given by the earlier rows of that combo. */
  lemma RowPlacedInOrder(edges: seq<ComboEdge>, i: nat)
    requires i < |edges|
    ensures var pos := |ComponentsOf(edges[..i], edges[i].comboId)|;
      pos < |ComponentsOf(edges, edges[i].comboId)| &&
      ComponentsOf(edges, edges[i].comboId)[pos] == Info(edges[i])
  {
    var c := edges[i].comboId;
    assert edges == edges[..i] + ([edges[i]] + edges[i + 1..]);
    ComponentsOfAppend(edges[..i], [edges[i]] + edges[i + 1..], c);
    ComponentsOfAppend([edges[i]], edges[i + 1..], c);
    assert ComponentsOf([edges[i]], c) == [Info(edges[i])] by {
      assert [edges[i]][..0] == [];
    }
  }

  /** Adding one row to the input adds one component at the end of its combo's list. */
  lemma GroupedSnoc(edges: seq<ComboEdge>, e: ComboEdge)
    ensures Grouped(edges + [e]) ==
      if e.comboId in Grouped(edges)
      then Grouped(edges)[e.comboId := Grouped(edges)[e.comboId] + [Info(e)]]
      else Grouped(edges)[e.comboId := [Info(e)]]
  {
    var s := edges + [e];
    assert s[..|s| - 1] == edges;
    assert ComboIds(s) == ComboIds(edges) + {e.comboId} by {
      forall c | c in ComboIds(s) ensures c in ComboIds(edges) + {e.comboId} {
        var x :| x in s && x.comboId == c;
      }
      forall c | c in ComboIds(edges) ensures c in ComboIds(s) {
        var x :| x in edges && x.comboId == c;
        assert x in s;
      }
    }
    if e.comboId !in ComboIds(edges) {
      forall i | 0 <= i < |edges| ensures edges[i].comboId != e.comboId {
        assert edges[i] in edges;
      }
      ComponentsOfNonEmpty(edges, e.comboId);
    }
    var g := Grouped(edges);
    var expected := if e.comboId in g then g[e.comboId := g[e.comboId] + [Info(e)]]
                    else g[e.comboId := [Info(e)]];
    assert Grouped(s).Keys == expected.Keys;
    forall c | c in expected ensures Grouped(s)[c] == expected[c] {
      assert ComponentsOf(s, c) == ComponentsOf(edges, c) + (if e.comboId == c then [Info(e)] else []);
    }
  }

  /** The grouping loop of `getComboRelationships`, over the rows the query returned. */
  method GroupEdges(edges: seq<ComboEdge>) returns (comboMap: ComboMap)
    ensures comboMap == Grouped(edges)
    ensures forall c :: c in comboMap <==> c in ComboIds(edges)
    ensures forall c :: c in comboMap ==> |comboMap[c]| > 0
  {
    comboMap := map[];
    for i := 0 to |edges|
      invariant comboMap == Grouped(edges[..i])
    {
      var cc := edges[i];
      ghost var prev := edges[..i];
      assert edges[..i + 1] == prev + [cc];
      GroupedSnoc(prev, cc);
      if cc.comboId !in comboMap {
        comboMap := comboMap[cc.comboId := []];
        assert comboMap[cc.comboId] + [Info(cc)] == [Info(cc)];
      }
      comboMap := comboMap[cc.comboId := comboMap[cc.comboId] + [Info(cc)]];
    }
    assert edges[..|edges|] == edges;
    GroupedNonEmpty(edges);
  }

  /** Every combo of the registry has at least one component. */
  lemma GroupedNonEmpty(edges: seq<ComboEdge>)
    ensures forall c :: c in Grouped(edges) ==> |Grouped(edges)[c]| > 0
  {
    forall c | c in Grouped(edges) ensures |Grouped(edges)[c]| > 0 {
      var x :| x in edges && x.comboId == c;
      var i :| 0 <= i < |edges| && edges[i] == x;
      ComponentsOfNonEmpty(edges, c);
    }
  }

  // ---------------------------------------------------------------------------
  // The order the rows are read in
  // ---------------------------------------------------------------------------

  /** Text order by code points: `a` comes no later than `b`. */
  predicate TextBefore(a: string, b: string) {
    if a == [] then true
    else if b == [] then false
    else if a[0] != b[0] then a[0] < b[0]
    else TextBefore(a[1..], b[1..])
  }

  lemma {:induction false} TextBeforeTotal(a: string, b: string)
    ensures TextBefore(a, b) || TextBefore(b, a)
  {
    if a != [] && b != [] && a[0] == b[0] {
      TextBeforeTotal(a[1..], b[1..]);
    }
  }

  lemma {:induction false} TextBeforeAntisymmetric(a: string, b: string)
    requires TextBefore(a, b) && TextBefore(b, a)
    ensures a == b
  {
    if a != [] && b != [] {
      TextBeforeAntisymmetric(a[1..], b[1..]);
      assert a == [a[0]] + a[1..] && b == [b[0]] + b[1..];
    }
  }

  lemma {:induction false} TextBeforeTransitive(a: string, b: string, c: string)
    requires TextBefore(a, b) && TextBefore(b, c)
    ensures TextBefore(a, c)
  {
    if a != [] && b != [] && c != [] && a[0] == b[0] && b[0] == c[0] {
      TextBeforeTransitive(a[1..], b[1..], c[1..]);
    }
  }

  /** `.order('combo_design_id').order('component_design_id')`: by combo, then by component. */
  predicate EdgeBefore(x: ComboEdge, y: ComboEdge) {
    if x.comboId == y.comboId then TextBefore(x.componentId, y.componentId)
    else TextBefore(x.comboId, y.comboId)
  }

  lemma EdgeBeforeTotal(x: ComboEdge, y: ComboEdge)
    ensures EdgeBefore(x, y) || EdgeBefore(y, x)
  {
    TextBeforeTotal(x.comboId, y.comboId);
    TextBeforeTotal(x.componentId, y.componentId);
  }

  lemma EdgeBeforeTransitive(x: ComboEdge, y: ComboEdge, z: ComboEdge)
    requires EdgeBefore(x, y) && EdgeBefore(y, z)
    ensures EdgeBefore(x, z)
  {
    if x.comboId == y.comboId && y.comboId == z.comboId {
      TextBeforeTransitive(x.componentId, y.componentId, z.componentId);
    } else if x.comboId != y.comboId && y.comboId != z.comboId {
      TextBeforeTransitive(x.comboId, y.comboId, z.comboId);
      if x.comboId == z.comboId {
        TextBeforeAntisymmetric(x.comboId, y.comboId);
      }
    }
  }

  /** Rows in query order. */
  predicate SortedEdges(s: seq<ComboEdge>) {
    forall i, j :: 0 <= i < j < |s| ==> EdgeBefore(s[i], s[j])
  }

  /** Components in increasing component id. */
  predicate SortedByComponent(infos: seq<ComponentInfo>) {
    forall i, j :: 0 <= i < j < |infos| ==> TextBefore(infos[i].component, infos[j].component)
  }

  /** One row placed after every row that sorts no later than it. */
  function InsertEdge(s: seq<ComboEdge>, e: ComboEdge): (r: seq<ComboEdge>)
    ensures multiset(r) == multiset(s) + multiset{e}
  {
    if s == [] then [e]
    else
      var prefix, last := s[..|s| - 1], s[|s| - 1];
      assert s == prefix + [last];
      if EdgeBefore(last, e) then s + [e] else InsertEdge(prefix, e) + [last]
  }

  /**
   * The table's rows as the query returns them. The table itself has no order;
   * the database sorts by combo and then by component, and rows that tie come
   * in an order the model does not promise (here: the order given).
   */
  function ReadOrder(edges: seq<ComboEdge>): (r: seq<ComboEdge>)
    ensures multiset(r) == multiset(edges)
  {
    if edges == [] then []
    else
      var prefix := edges[..|edges| - 1];
      assert edges == prefix + [edges[|edges| - 1]];
      InsertEdge(ReadOrder(prefix), edges[|edges| - 1])
  }

  lemma {:induction false} InsertEdgeSorted(s: seq<ComboEdge>, e: ComboEdge)
    requires SortedEdges(s)
    ensures SortedEdges(InsertEdge(s, e))
  {
    if s != [] {
      var prefix, last := s[..|s| - 1], s[|s| - 1];
      var r := InsertEdge(s, e);
      if EdgeBefore(last, e) {
        forall i, j | 0 <= i < j < |r| ensures EdgeBefore(r[i], r[j]) {
          if j == |s| && i < |s| - 1 {
            EdgeBeforeTransitive(s[i], last, e);
          }
        }
      } else {
        InsertEdgeSorted(prefix, e);
        var r' := InsertEdge(prefix, e);
        EdgeBeforeTotal(last, e);
        forall i, j | 0 <= i < j < |r| ensures EdgeBefore(r[i], r[j]) {
          if j == |r| - 1 {
            assert r[i] == r'[i] && r'[i] in multiset(r');
            if r'[i] != e {
              assert r'[i] in prefix;
              var k :| 0 <= k < |prefix| && prefix[k] == r'[i];
              assert s[k] == r'[i];
            }
          } else {
            assert r[i] == r'[i] && r[j] == r'[j];
          }
        }
      }
    }
  }

  /** The query returns the rows sorted. */
  lemma {:induction false} ReadOrderSorted(edges: seq<ComboEdge>)
    ensures SortedEdges(ReadOrder(edges))
  {
    if edges != [] {
      ReadOrderSorted(edges[..|edges| - 1]);
      InsertEdgeSorted(ReadOrder(edges[..|edges| - 1]), edges[|edges| - 1]);
    }
  }

  /** Inserting a row adds its component to its combo's list, as a multiset. */
  lemma {:induction false} InsertEdgeComponents(s: seq<ComboEdge>, e: ComboEdge, c: string)
    ensures multiset(ComponentsOf(InsertEdge(s, e), c)) == multiset(ComponentsOf(s, c)) + multiset(ComponentsOf([e], c))
  {
    if s == [] {
      assert ComponentsOf(s, c) == [];
    } else {
      var prefix, last := s[..|s| - 1], s[|s| - 1];
      assert s == prefix + [last];
      if EdgeBefore(last, e) {
        ComponentsOfAppend(s, [e], c);
      } else {
        InsertEdgeComponents(prefix, e, c);
        ComponentsOfAppend(InsertEdge(prefix, e), [last], c);
        ComponentsOfAppend(prefix, [last], c);
      }
    }
  }

  /** Reading the rows back gives each combo the components stored for it, as a multiset. */
  lemma {:induction false} ReadOrderComponents(edges: seq<ComboEdge>, c: string)
    ensures multiset(ComponentsOf(ReadOrder(edges), c)) == multiset(ComponentsOf(edges, c))
  {
    if edges != [] {
      var prefix, last := edges[..|edges| - 1], edges[|edges| - 1];
      assert edges == prefix + [last];
      ReadOrderComponents(prefix, c);
      InsertEdgeComponents(ReadOrder(prefix), last, c);
      ComponentsOfAppend(prefix, [last], c);
    }
  }

  /** Every component listed for `c` comes from a row of `c`. */
  lemma {:induction false} ComponentsOfFrom(s: seq<ComboEdge>, c: string, k: nat)
    requires k < |ComponentsOf(s, c)|
    ensures exists i :: 0 <= i < |s| && s[i].comboId == c && Info(s[i]) == ComponentsOf(s, c)[k]
  {
    var prefix, last := s[..|s| - 1], s[|s| - 1];
    if k < |ComponentsOf(prefix, c)| {
      ComponentsOfFrom(prefix, c, k);
      var i :| 0 <= i < |prefix| && prefix[i].comboId == c && Info(prefix[i]) == ComponentsOf(prefix, c)[k];
      assert s[i] == prefix[i];
    } else {
      assert s[|s| - 1].comboId == c && Info(s[|s| - 1]) == ComponentsOf(s, c)[k];
    }
  }

  /** In sorted rows, each combo's components are sorted by component id. */
  lemma {:induction false} SortedComponents(s: seq<ComboEdge>, c: string)
    requires SortedEdges(s)
    ensures SortedByComponent(ComponentsOf(s, c))
  {
    if s != [] {
      var prefix, last := s[..|s| - 1], s[|s| - 1];
      assert SortedEdges(prefix) by {
        forall i, j | 0 <= i < j < |prefix| ensures EdgeBefore(prefix[i], prefix[j]) {
          assert prefix[i] == s[i] && prefix[j] == s[j];
        }
      }
      SortedComponents(prefix, c);
      var cs := ComponentsOf(s, c);
      if last.comboId == c {
        forall i, j | 0 <= i < j < |cs| ensures TextBefore(cs[i].component, cs[j].component) {
          if j == |cs| - 1 {
            ComponentsOfFrom(prefix, c, i);
            var k :| 0 <= k < |prefix| && prefix[k].comboId == c && Info(prefix[k]) == ComponentsOf(prefix, c)[i];
            assert s[k] == prefix[k] && EdgeBefore(s[k], s[|s| - 1]);
          }
        }
      }
    }
  }

  /**
   * The registry read back from the table: a key for each combo with rows, its
   * components sorted by component id and, as a multiset, the ones stored.
   */
  lemma ReadRegistry(edges: seq<ComboEdge>, c: string)
    ensures c in Grouped(ReadOrder(edges)) <==> |ComponentsOf(edges, c)| > 0
    ensures c in Grouped(ReadOrder(edges)) ==>
      multiset(Grouped(ReadOrder(edges))[c]) == multiset(ComponentsOf(edges, c)) &&
      SortedByComponent(Grouped(ReadOrder(edges))[c])
  {
    var r := ReadOrder(edges);
    assert forall e :: e in r <==> e in edges by {
      forall e ensures e in r <==> e in edges {
        assert e in r <==> e in multiset(r);
        assert e in edges <==> e in multiset(edges);
      }
    }
    ReadOrderComponents(edges, c);
    ReadOrderSorted(edges);
    SortedComponents(r, c);
    ComponentsOfNonEmpty(edges, c);
    ComboIdsByIndex(edges, c);
  }

  /** A combo id is named by the rows exactly when some row carries it. */
  lemma ComboIdsByIndex(edges: seq<ComboEdge>, c: string)
    ensures c in ComboIds(edges) <==> exists i :: 0 <= i < |edges| && edges[i].comboId == c
  {
    if c in ComboIds(edges) {
      var e :| e in edges && e.comboId == c;
      var i :| 0 <= i < |edges| && edges[i] == e;
    }
  }

  /**
   * `getComboRelationships`: the query's rows (in `ReadOrder`) grouped by
   * combo, or the empty registry when the query reports an error (`None`).
   */
  method GetComboRelationships(rows: Option<seq<ComboEdge>>) returns (comboMap: ComboMap)
    ensures rows.None? ==> comboMap == map[]
    ensures rows.Some? ==> comboMap == Grouped(rows.value)
    ensures forall c :: c in comboMap ==> |comboMap[c]| > 0
  {
    if rows.None? {
      return map[];
    }
    comboMap := GroupEdges(rows.value);
  }

  // ---------------------------------------------------------------------------
  // Expanding combo line items
  // ---------------------------------------------------------------------------

  /** A line whose design has a non-empty component list is a combo line. */
  predicate IsComboItem(item: DBOrderItem, combos: ComboMap) {
    item.design in combos && |combos[item.design]| > 0
  }

  /** One line per component: same size, price and order, component design, scaled quantity. */
  function ExpandOne(item: DBOrderItem, comps: seq<ComponentInfo>): (r: seq<DBOrderItem>)
    ensures |r| == |comps|
    ensures forall k :: 0 <= k < |r| ==>
      r[k].design == comps[k].component && r[k].quantity == item.quantity * comps[k].multiplier &&
      r[k].size == item.size && r[k].pricePerUnit == item.pricePerUnit && r[k].orderId == item.orderId
  {
    seq(|comps|, k requires 0 <= k < |comps| =>
      item.(design := comps[k].component, quantity := item.quantity * comps[k].multiplier))
  }

  /** What one input line becomes in the output. */
  function ItemExpansion(item: DBOrderItem, combos: ComboMap): seq<DBOrderItem> {
    if IsComboItem(item, combos) then ExpandOne(item, combos[item.design]) else [item]
  }

  /** The expansion of a whole list: each line's expansion, in input order. */
  function Expanded(items: seq<DBOrderItem>, combos: ComboMap): seq<DBOrderItem> {
    if items == [] then []
    else Expanded(items[..|items| - 1], combos) + ItemExpansion(items[|items| - 1], combos)
  }

  /** How many output lines one input line yields. */
  function ExpansionSize(item: DBOrderItem, combos: ComboMap): nat {
    if IsComboItem(item, combos) then |combos[item.design]| else 1
  }

  function TotalExpansionSize(items: seq<DBOrderItem>, combos: ComboMap): nat {
    if items == [] then 0
    else TotalExpansionSize(items[..|items| - 1], combos) + ExpansionSize(items[|items| - 1], combos)
  }

  /** `expandComboItems`, given the registry. */
  method ExpandComboItems(items: seq<DBOrderItem>, combos: ComboMap) returns (expandedItems: seq<DBOrderItem>)
    ensures expandedItems == Expanded(items, combos)
  {
    expandedItems := [];
    for i := 0 to |items|
      invariant expandedItems == Expanded(items[..i], combos)
    {
      var item := items[i];
      assert items[..i + 1][..i] == items[..i];
      if item.design in combos && |combos[item.design]| > 0 {
        var components := combos[item.design];
        ghost var before := expandedItems;
        for j := 0 to |components|
          invariant expandedItems == before + ExpandOne(item, components[..j])
        {
          var comp := components[j];
          assert ExpandOne(item, components[..j + 1]) == ExpandOne(item, components[..j]) + [item.(design := comp.component, quantity := item.quantity * comp.multiplier)];
          expandedItems := expandedItems + [item.(design := comp.component, quantity := item.quantity * comp.multiplier)];
        }
        assert components[..|components|] == components;
      } else {
        expandedItems := expandedItems + [item];
      }
    }
    assert items[..|items|] == items;
  }

  /** Expansion distributes over concatenation of the input. */
  lemma {:induction false} ExpandedAppend(a: seq<DBOrderItem>, b: seq<DBOrderItem>, combos: ComboMap)
    ensures Expanded(a + b, combos) == Expanded(a, combos) + Expanded(b, combos)
    decreases |b|
  {
    if b == [] {
      assert a + b == a;
    } else {
      var b', last := b[..|b| - 1], b[|b| - 1];
      assert (a + b)[..|a + b| - 1] == a + b';
      assert (a + b)[|a + b| - 1] == last;
      ExpandedAppend(a, b', combos);
      assert Expanded(a + b, combos) == Expanded(a + b', combos) + ItemExpansion(last, combos);
      assert Expanded(b, combos) == Expanded(b', combos) + ItemExpansion(last, combos);
    }
  }

  /** The output has one line per component of each combo line and one per other line. */
  lemma {:induction false} ExpandedLength(items: seq<DBOrderItem>, combos: ComboMap)
    ensures |Expanded(items, combos)| == TotalExpansionSize(items, combos)
  {
    if items != [] {
      ExpandedLength(items[..|items| - 1], combos);
    }
  }

  /**
   * The lines produced for input line `i` sit contiguously, right after those of
   * the earlier lines: a combo line's components in registry order, any other line as is.
   */
  lemma ExpandedAt(items: seq<DBOrderItem>, combos: ComboMap, i: nat)
    requires i < |items|
    ensures var start := |Expanded(items[..i], combos)|;
      start + ExpansionSize(items[i], combos) <= |Expanded(items, combos)| &&
      Expanded(items, combos)[start .. start + ExpansionSize(items[i], combos)] == ItemExpansion(items[i], combos)
  {
    var pre, x, rest := items[..i], items[i], items[i + 1..];
    var head := pre + [x];
    assert items == head + rest;
    assert head[..|head| - 1] == pre;
    var one := ItemExpansion(x, combos);
    assert Expanded(head, combos) == Expanded(pre, combos) + one;
    ExpandedAppend(head, rest, combos);
    assert |one| == ExpansionSize(x, combos);
    var all := Expanded(pre, combos) + one + Expanded(rest, combos);
    assert Expanded(items, combos) == all;
    assert all[|Expanded(pre, combos)| .. |Expanded(pre, combos)| + |one|] == one;
  }

  /** A list with no combo line comes back unchanged, in order and value. */
  lemma {:induction false} ExpandedWithoutCombos(items: seq<DBOrderItem>, combos: ComboMap)
    requires forall i :: 0 <= i < |items| ==> !IsComboItem(items[i], combos)
    ensures Expanded(items, combos) == items
  {
    if items != [] {
      var prefix := items[..|items| - 1];
      ExpandedWithoutCombos(prefix, combos);
      assert items == prefix + [items[|items| - 1]];
    }
  }

  /**
   * One level only: a component that is itself a combo is copied, not expanded again,
   * so a second pass can change the result.
   */
  lemma ExpansionIsOneLevel()
    ensures var combos := map["3" := [ComponentInfo("1", 1)], "1" := [ComponentInfo("2", 2)]];
      var line := DBOrderItem("3", "L", 2, 750, None);
      Expanded([line], combos) == [line.(design := "1")] &&
      Expanded(Expanded([line], combos), combos) == [line.(design := "2", quantity := 4)]
  {
    var combos := map["3" := [ComponentInfo("1", 1)], "1" := [ComponentInfo("2", 2)]];
    var line := DBOrderItem("3", "L", 2, 750, None);
    ExpandSingleComponent(line, combos, ComponentInfo("1", 1));
    ExpandSingleComponent(line.(design := "1"), combos, ComponentInfo("2", 2));
  }

  /** A line of a combo with a single component expands to one line for that component. */
  lemma ExpandSingleComponent(x: DBOrderItem, combos: ComboMap, comp: ComponentInfo)
    requires x.design in combos && combos[x.design] == [comp]
    ensures Expanded([x], combos) == [x.(design := comp.component, quantity := x.quantity * comp.multiplier)]
  {
    ExpandedSingle(x, combos);
    var r := ExpandOne(x, [comp]);
    assert |r| == 1;
    assert r == [r[0]];
  }

  /** A one-line list expands to that line's expansion. */
  lemma ExpandedSingle(x: DBOrderItem, combos: ComboMap)
    ensures Expanded([x], combos) == ItemExpansion(x, combos)
  {
    assert [x][..0] == [];
  }

  /** Total quantity of a list of lines. */
  function TotalQuantity(items: seq<DBOrderItem>): int {
    if items == [] then 0 else TotalQuantity(items[..|items| - 1]) + items[|items| - 1].quantity
  }

  /** Sum of the multipliers of a component list. */
  function MultiplierSum(comps: seq<ComponentInfo>): int {
    if comps == [] then 0 else MultiplierSum(comps[..|comps| - 1]) + comps[|comps| - 1].multiplier
  }

  /** The units a line stands for: quantity times the multiplier sum for a combo line. */
  function EffectiveQuantity(item: DBOrderItem, combos: ComboMap): int {
    if IsComboItem(item, combos) then item.quantity * MultiplierSum(combos[item.design]) else item.quantity
  }

  function TotalEffectiveQuantity(items: seq<DBOrderItem>, combos: ComboMap): int {
    if items == [] then 0
    else TotalEffectiveQuantity(items[..|items| - 1], combos) + EffectiveQuantity(items[|items| - 1], combos)
  }

  lemma {:induction false} TotalQuantityAppend(a: seq<DBOrderItem>, b: seq<DBOrderItem>)
    ensures TotalQuantity(a + b) == TotalQuantity(a) + TotalQuantity(b)
    decreases |b|
  {
    if b == [] {
      assert a + b == a;
    } else {
      assert (a + b)[..|a + b| - 1] == a + b[..|b| - 1];
      TotalQuantityAppend(a, b[..|b| - 1]);
    }
  }

  lemma {:induction false} ExpandOneQuantity(item: DBOrderItem, comps: seq<ComponentInfo>)
    ensures TotalQuantity(ExpandOne(item, comps)) == item.quantity * MultiplierSum(comps)
  {
    if comps != [] {
      var n := |comps|;
      var prefix := comps[..n - 1];
      ExpandOneQuantity(item, prefix);
      assert ExpandOne(item, comps)[..n - 1] == ExpandOne(item, prefix);
      calc {
        TotalQuantity(ExpandOne(item, comps));
        TotalQuantity(ExpandOne(item, prefix)) + item.quantity * comps[n - 1].multiplier;
        item.quantity * MultiplierSum(prefix) + item.quantity * comps[n - 1].multiplier;
        { assert item.quantity * (MultiplierSum(prefix) + comps[n - 1].multiplier)
            == item.quantity * MultiplierSum(prefix) + item.quantity * comps[n - 1].multiplier; }
        item.quantity * MultiplierSum(comps);
      }
    }
  }

  /** Expansion keeps the number of units: a combo line counts quantity times each multiplier. */
  lemma {:induction false} ExpandedKeepsUnits(items: seq<DBOrderItem>, combos: ComboMap)
    ensures TotalQuantity(Expanded(items, combos)) == TotalEffectiveQuantity(items, combos)
  {
    if items != [] {
      var prefix := items[..|items| - 1];
      var last := items[|items| - 1];
      ExpandedKeepsUnits(prefix, combos);
      TotalQuantityAppend(Expanded(prefix, combos), ItemExpansion(last, combos));
      if IsComboItem(last, combos) {
        ExpandOneQuantity(last, combos[last.design]);
      } else {
        assert [last][..0] == [];
      }
    }
  }
}
