/**
 * The combo administration API (src/app/api/admin/combos/route.ts).
 *
 * The store is two tables seen abstractly: the component rows
 * (`shirt_combo_components`, one `ComboEdge` each, in store order) and the
 * `is_combo` flag of each catalog design. Whether each write succeeds is a
 * parameter of the handler, so every partial-failure path is a state the
 * model reaches.
 */
module CombosRoute {
  import opened Wrappers
  import opened Http
  import opened ComboProducts

  /**
   * The API's authentication test: the `admin_authenticated` cookie is present,
   * whatever its value (`cookieStore.has`).
   */
  predicate HasAdminCookie(cookie: Option<string>) {
    cookie.Some?
  }

  // ---------------------------------------------------------------------------
  // POST validation
  // ---------------------------------------------------------------------------

  /** A component as the request body gives it: "" and 0 stand for a missing field. */
  datatype ComponentInput = ComponentInput(componentId: string, multiplier: int)

  /**
   * The POST body. An empty `comboId` stands for a missing one; `components` is
   * `None` when the field is missing or is not an array.
   */
  datatype PostBody = PostBody(comboId: string, components: Option<seq<ComponentInput>>)

  /** A component passes when it has an id and a positive multiplier. */
  predicate ComponentAccepted(c: ComponentInput) {
    c.componentId != "" && c.multiplier > 0
  }

  /** The two server checks, and nothing else. */
  predicate PostAccepted(body: PostBody) {
    body.comboId != "" && body.components.Some? && |body.components.value| > 0 &&
    forall k :: 0 <= k < |body.components.value| ==> ComponentAccepted(body.components.value[k])
  }

  /** The component loop: the index of the first rejected component, if any. */
  method FirstRejected(components: seq<ComponentInput>) returns (bad: Option<nat>)
    ensures bad.None? <==> forall k :: 0 <= k < |components| ==> ComponentAccepted(components[k])
    ensures bad.Some? ==> (bad.value < |components| && !ComponentAccepted(components[bad.value]) &&
      forall k :: 0 <= k < bad.value ==> ComponentAccepted(components[k]))
  {
    for i := 0 to |components|
      invariant forall k :: 0 <= k < i ==> ComponentAccepted(components[k])
    {
      var comp := components[i];
      if comp.componentId == "" || comp.multiplier == 0 || comp.multiplier <= 0 {
        return Some(i);
      }
    }
    return None;
  }

  /** The rows a successful POST inserts: one per submitted component, in order. */
  function NewEdges(comboId: string, components: seq<ComponentInput>): (rows: seq<ComboEdge>)
    ensures |rows| == |components|
    ensures forall k :: 0 <= k < |rows| ==> rows[k] == ComboEdge(comboId, components[k].componentId, components[k].multiplier)
  {
    seq(|components|, k requires 0 <= k < |components| =>
      ComboEdge(comboId, components[k].componentId, components[k].multiplier))
  }

  /** The rows that survive `delete().eq('combo_design_id', comboId)`, in order. */
  function RemoveEdgesOf(edges: seq<ComboEdge>, comboId: string): seq<ComboEdge> {
    if edges == [] then []
    else
      var e := edges[|edges| - 1];
      RemoveEdgesOf(edges[..|edges| - 1], comboId) + (if e.comboId == comboId then [] else [e])
  }

  /** `update({ is_combo: v }).eq('id', id)`: changes the flag of an existing design only. */
  function SetFlag(flags: map<string, bool>, id: string, v: bool): (r: map<string, bool>)
    ensures r.Keys == flags.Keys
    ensures forall d :: d in r && d != id ==> r[d] == flags[d]
    ensures id in r ==> r[id] == v
  {
    if id in flags then flags[id := v] else flags
  }

  /** The component list the registry holds for each combo after removal. */
  lemma {:induction false} RemoveEdgesOfComponents(edges: seq<ComboEdge>, comboId: string, c: string)
    ensures ComponentsOf(RemoveEdgesOf(edges, comboId), c) == if c == comboId then [] else ComponentsOf(edges, c)
  {
    if edges != [] {
      var prefix := edges[..|edges| - 1];
      var e := edges[|edges| - 1];
      RemoveEdgesOfComponents(prefix, comboId, c);
      var kept := if e.comboId == comboId then [] else [e];
      ComponentsOfAppend(RemoveEdgesOf(prefix, comboId), kept, c);
      assert [e][..0] == [];
    }
  }

  /** The submitted components as registry entries, in submission order. */
  function SubmittedInfos(components: seq<ComponentInput>): (infos: seq<ComponentInfo>)
    ensures |infos| == |components|
    ensures forall k :: 0 <= k < |components| ==>
      infos[k] == ComponentInfo(components[k].componentId, components[k].multiplier)
  {
    seq(|components|, k requires 0 <= k < |components| =>
      ComponentInfo(components[k].componentId, components[k].multiplier))
  }

  /** The inserted rows, in insert order, make up exactly the submitted components of the combo. */
  lemma {:induction false} NewEdgesComponents(comboId: string, components: seq<ComponentInput>, c: string)
    ensures ComponentsOf(NewEdges(comboId, components), c) ==
      if c == comboId then SubmittedInfos(components) else []
  {
    if components != [] {
      var n := |components|;
      NewEdgesComponents(comboId, components[..n - 1], c);
      assert NewEdges(comboId, components)[..n - 1] == NewEdges(comboId, components[..n - 1]);
    }
  }

  /** Removing a combo's rows twice is the same as once. */
  lemma {:induction false} RemoveEdgesOfIdempotent(edges: seq<ComboEdge>, comboId: string)
    ensures RemoveEdgesOf(RemoveEdgesOf(edges, comboId), comboId) == RemoveEdgesOf(edges, comboId)
  {
    if edges != [] {
      var prefix := edges[..|edges| - 1];
      var e := edges[|edges| - 1];
      RemoveEdgesOfIdempotent(prefix, comboId);
      var once := RemoveEdgesOf(prefix, comboId);
      if e.comboId != comboId {
        assert RemoveEdgesOf(edges, comboId) == once + [e];
        assert (once + [e])[..|once + [e]| - 1] == once;
        assert RemoveEdgesOf(once + [e], comboId) == RemoveEdgesOf(once, comboId) + [e];
      } else {
        assert RemoveEdgesOf(edges, comboId) == once;
      }
    }
  }

  /**
   * The server lets through what the admin screen rejects: a combo listing
   * the same component twice, and a combo listing itself.
   */
  lemma ServerAcceptsDuplicateAndSelfReference()
    ensures PostAccepted(PostBody("1", Some([ComponentInput("2", 1), ComponentInput("2", 1)])))
    ensures PostAccepted(PostBody("1", Some([ComponentInput("1", 1)])))
    ensures !PostAccepted(PostBody("1", Some([ComponentInput("2", 0)])))
    ensures !PostAccepted(PostBody("1", Some([])))
    ensures !PostAccepted(PostBody("", Some([ComponentInput("2", 1)])))
  {
    var bad := [ComponentInput("2", 0)];
    assert !ComponentAccepted(bad[0]);
  }

  // ---------------------------------------------------------------------------
  // The store and the writing handlers
  // ---------------------------------------------------------------------------

  class ComboStore {
    /** `shirt_combo_components`, in store order. */
    var edges: seq<ComboEdge>
    /** `shirt_designs.is_combo`, one entry per catalog design. */
    var isCombo: map<string, bool>

    constructor(edges0: seq<ComboEdge>, isCombo0: map<string, bool>)
      ensures edges == edges0 && isCombo == isCombo0
    {
      edges := edges0;
      isCombo := isCombo0;
    }

    /**
     * `POST`: authenticate, validate, then flag the design, delete its rows and
     * insert the submitted ones, stopping at the first failed write with 500.
     */
    method Post(cookie: Option<string>, body: PostBody, updateOk: bool, deleteOk: bool, insertOk: bool)
      returns (status: Status)
      modifies this
      ensures !HasAdminCookie(cookie) ==> status == Unauthorized && edges == old(edges) && isCombo == old(isCombo)
      ensures HasAdminCookie(cookie) && !PostAccepted(body) ==>
        status == BadRequest && edges == old(edges) && isCombo == old(isCombo)
      ensures HasAdminCookie(cookie) && PostAccepted(body) ==>
        var id := body.comboId;
        if !updateOk then status == ServerError && edges == old(edges) && isCombo == old(isCombo)
        else if !deleteOk then status == ServerError && edges == old(edges) && isCombo == SetFlag(old(isCombo), id, true)
        else if !insertOk then status == ServerError && edges == RemoveEdgesOf(old(edges), id) && isCombo == SetFlag(old(isCombo), id, true)
        else (status == Ok && edges == RemoveEdgesOf(old(edges), id) + NewEdges(id, body.components.value) &&
          isCombo == SetFlag(old(isCombo), id, true))
    {
      if !HasAdminCookie(cookie) {
        return Unauthorized;
      }
      var comboId, components := body.comboId, body.components;
      if comboId == "" || components.None? || |components.value| == 0 {
        return BadRequest;
      }
      var bad := FirstRejected(components.value);
      if bad.Some? {
        return BadRequest;
      }
      if !updateOk {
        return ServerError;
      }
      isCombo := SetFlag(isCombo, comboId, true);
      if !deleteOk {
        return ServerError;
      }
      edges := RemoveEdgesOf(edges, comboId);
      if !insertOk {
        return ServerError;
      }
      edges := edges + NewEdges(comboId, components.value);
      status := Ok;
    }

    /**
     * `DELETE`: authenticate, require `comboId` (empty for a missing
     * parameter), delete its rows, then clear its flag.
     */
    method Delete(cookie: Option<string>, comboId: string, deleteOk: bool, updateOk: bool) returns (status: Status)
      modifies this
      ensures !HasAdminCookie(cookie) ==> status == Unauthorized && edges == old(edges) && isCombo == old(isCombo)
      ensures HasAdminCookie(cookie) && comboId == "" ==> status == BadRequest && edges == old(edges) && isCombo == old(isCombo)
      ensures HasAdminCookie(cookie) && comboId != "" ==>
        if !deleteOk then status == ServerError && edges == old(edges) && isCombo == old(isCombo)
        else if !updateOk then status == ServerError && edges == RemoveEdgesOf(old(edges), comboId) && isCombo == old(isCombo)
        else status == Ok && edges == RemoveEdgesOf(old(edges), comboId) && isCombo == SetFlag(old(isCombo), comboId, false)
    {
      if !HasAdminCookie(cookie) {
        return Unauthorized;
      }
      if comboId == "" {
        return BadRequest;
      }
      if !deleteOk {
        return ServerError;
      }
      edges := RemoveEdgesOf(edges, comboId);
      if !updateOk {
        return ServerError;
      }
      isCombo := SetFlag(isCombo, comboId, false);
      status := Ok;
    }
  }

  /**
   * After a successful POST the registry read back from the table lists the
   * combo with exactly the submitted components, as a multiset and sorted by
   * component id (the query's order, not the submission order). Every other
   * combo reads back the components it had.
   */
  lemma PostReplacesComponents(edges: seq<ComboEdge>, comboId: string, components: seq<ComponentInput>, c: string)
    requires |components| > 0
    ensures var registry := Grouped(ReadOrder(RemoveEdgesOf(edges, comboId) + NewEdges(comboId, components)));
      c == comboId ==> (c in registry &&
        multiset(registry[c]) == multiset(SubmittedInfos(components)) &&
        SortedByComponent(registry[c]))
    ensures var registry := Grouped(ReadOrder(RemoveEdgesOf(edges, comboId) + NewEdges(comboId, components)));
      c != comboId ==> ((c in registry <==> c in Grouped(ReadOrder(edges))) &&
        (c in registry ==> multiset(registry[c]) == multiset(Grouped(ReadOrder(edges))[c])))
  {
    var after := RemoveEdgesOf(edges, comboId) + NewEdges(comboId, components);
    PostComponents(edges, comboId, components, c);
    ReadRegistry(after, c);
    ReadRegistry(edges, c);
  }

  /** The rows after a full POST list the submitted components for the combo and keep the others. */
  lemma PostComponents(edges: seq<ComboEdge>, comboId: string, components: seq<ComponentInput>, c: string)
    ensures ComponentsOf(RemoveEdgesOf(edges, comboId) + NewEdges(comboId, components), c) ==
      if c == comboId then SubmittedInfos(components) else ComponentsOf(edges, c)
  {
    ComponentsOfAppend(RemoveEdgesOf(edges, comboId), NewEdges(comboId, components), c);
    RemoveEdgesOfComponents(edges, comboId, c);
    NewEdgesComponents(comboId, components, c);
  }

  /**
   * When the insert fails after the delete, the design is left flagged as a
   * combo but has no rows, so the registry no longer lists it and the reports
   * count its lines as a plain design.
   */
  lemma FailedInsertLeavesEmptyCombo(edges: seq<ComboEdge>, isCombo: map<string, bool>, comboId: string)
    requires comboId in isCombo
    ensures SetFlag(isCombo, comboId, true)[comboId]
    ensures comboId !in Grouped(RemoveEdgesOf(edges, comboId))
  {
    var after := RemoveEdgesOf(edges, comboId);
    RemoveEdgesOfComponents(edges, comboId, comboId);
    ComponentsOfNonEmpty(after, comboId);
    forall e | e in after ensures e.comboId != comboId {
      var i :| 0 <= i < |after| && after[i] == e;
    }
  }

  /** A successful DELETE leaves other combos alone, and repeating it changes nothing more. */
  lemma DeleteIsIdempotent(edges: seq<ComboEdge>, isCombo: map<string, bool>, comboId: string, c: string)
    requires c != comboId
    ensures RemoveEdgesOf(RemoveEdgesOf(edges, comboId), comboId) == RemoveEdgesOf(edges, comboId)
    ensures SetFlag(SetFlag(isCombo, comboId, false), comboId, false) == SetFlag(isCombo, comboId, false)
    ensures ComponentsOf(RemoveEdgesOf(edges, comboId), c) == ComponentsOf(edges, c)
  {
    RemoveEdgesOfIdempotent(edges, comboId);
    RemoveEdgesOfComponents(edges, comboId, c);
  }

  // ---------------------------------------------------------------------------
  // GET
  // ---------------------------------------------------------------------------

  /** A `shirt_designs` row as GET reads it. */
  datatype DesignRow = DesignRow(id: string, name: string, isCombo: bool)

  datatype ComponentView = ComponentView(componentId: string, componentName: string, multiplier: int)

  datatype ComboView = ComboView(comboId: string, comboName: string, isCombo: bool, components: seq<ComponentView>)

  /** `new Map(designs.map(d => [d.id, d]))`: the last row for an id wins. */
  function DesignLookup(designs: seq<DesignRow>): map<string, DesignRow> {
    if designs == [] then map[]
    else DesignLookup(designs[..|designs| - 1])[designs[|designs| - 1].id := designs[|designs| - 1]]
  }

  /** `designMap.get(id)?.name || 'Unknown'`. */
  function NameOrUnknown(lookup: map<string, DesignRow>, id: string): string {
    if id in lookup && lookup[id].name != "" then lookup[id].name else "Unknown"
  }

  /** `designMap.get(id)?.is_combo || false`. */
  function FlagOrFalse(lookup: map<string, DesignRow>, id: string): bool {
    id in lookup && lookup[id].isCombo
  }

  function ViewOf(lookup: map<string, DesignRow>, info: ComponentInfo): ComponentView {
    ComponentView(info.component, NameOrUnknown(lookup, info.component), info.multiplier)
  }

  function ViewsOf(lookup: map<string, DesignRow>, infos: seq<ComponentInfo>): (views: seq<ComponentView>)
    ensures |views| == |infos|
    ensures forall k :: 0 <= k < |infos| ==> views[k] == ViewOf(lookup, infos[k])
  {
    seq(|infos|, k requires 0 <= k < |infos| => ViewOf(lookup, infos[k]))
  }

  /** The combo ids in the order they first appear among the rows (the `Map`'s key order). */
  function FirstAppearance(edges: seq<ComboEdge>): (ids: seq<string>)
    ensures forall c :: c in ids <==> c in ComboIds(edges)
    ensures forall i, j :: 0 <= i < j < |ids| ==> ids[i] != ids[j]
  {
    if edges == [] then []
    else
      var prefix := edges[..|edges| - 1];
      var e := edges[|edges| - 1];
      assert edges == prefix + [e];
      assert ComboIds(edges) == ComboIds(prefix) + {e.comboId};
      var ids := FirstAppearance(prefix);
      if e.comboId in ids then ids else ids + [e.comboId]
  }

  /** The group GET reports for combo `c`. */
  function GroupView(edges: seq<ComboEdge>, lookup: map<string, DesignRow>, c: string): ComboView {
    ComboView(c, NameOrUnknown(lookup, c), FlagOrFalse(lookup, c), ViewsOf(lookup, ComponentsOf(edges, c)))
  }

  /** The grouping loop's state after one more row: only the row's own combo grows. */
  lemma GroupViewSnoc(edges: seq<ComboEdge>, e: ComboEdge, lookup: map<string, DesignRow>, c: string)
    ensures GroupView(edges + [e], lookup, c) ==
      if c == e.comboId then GroupView(edges, lookup, c).(components := GroupView(edges, lookup, c).components + [ViewOf(lookup, Info(e))])
      else GroupView(edges, lookup, c)
  {
    assert (edges + [e])[..|edges|] == edges;
    if c == e.comboId {
      var infos := ComponentsOf(edges, c);
      assert ComponentsOf(edges + [e], c) == infos + [Info(e)];
      assert ViewsOf(lookup, infos + [Info(e)]) == ViewsOf(lookup, infos) + [ViewOf(lookup, Info(e))];
    }
  }

  /** A combo no row has named yet has the empty group. */
  lemma NewGroupIsEmpty(edges: seq<ComboEdge>, c: string)
    requires c !in ComboIds(edges)
    ensures ComponentsOf(edges, c) == []
  {
    forall j | 0 <= j < |edges| ensures edges[j].comboId != c {
      assert edges[j] in edges;
    }
    ComponentsOfNonEmpty(edges, c);
  }

  /** The grouping state once `rows` have been read: the `Map`'s keys in order and each group. */
  ghost predicate GroupsOf(groups: map<string, ComboView>, order: seq<string>, rows: seq<ComboEdge>, designMap: map<string, DesignRow>) {
    order == FirstAppearance(rows) &&
    (forall c :: c in groups <==> c in order) &&
    (forall c :: c in groups ==> groups[c] == GroupView(rows, designMap, c))
  }

  /** One step of the `forEach`: create the group on first sight, then push the component. */
  method AddRow(groups0: map<string, ComboView>, order0: seq<string>, ghost rows: seq<ComboEdge>, cc: ComboEdge, designMap: map<string, DesignRow>)
    returns (groups: map<string, ComboView>, order: seq<string>)
    requires GroupsOf(groups0, order0, rows, designMap)
    ensures GroupsOf(groups, order, rows + [cc], designMap)
  {
    groups, order := groups0, order0;
    assert (rows + [cc])[..|rows|] == rows;
    var group;
    if cc.comboId !in groups {
      NewGroupIsEmpty(rows, cc.comboId);
      group := ComboView(cc.comboId, NameOrUnknown(designMap, cc.comboId), FlagOrFalse(designMap, cc.comboId), []);
      order := order + [cc.comboId];
    } else {
      group := groups[cc.comboId];
    }
    groups := groups[cc.comboId := group.(components := group.components + [ViewOf(designMap, Info(cc))])];
    forall c | c in groups ensures groups[c] == GroupView(rows + [cc], designMap, c) {
      GroupViewSnoc(rows, cc, designMap, c);
    }
  }

  /** The `forEach` over the component rows, building the groups in a `Map`. */
  method GroupRows(comboComponents: seq<ComboEdge>, designMap: map<string, DesignRow>)
    returns (groups: map<string, ComboView>, order: seq<string>)
    ensures order == FirstAppearance(comboComponents)
    ensures forall c :: c in groups <==> c in order
    ensures forall c :: c in groups ==> groups[c] == GroupView(comboComponents, designMap, c)
  {
    groups := map[];
    order := [];
    for i := 0 to |comboComponents|
      invariant GroupsOf(groups, order, comboComponents[..i], designMap)
    {
      assert comboComponents[..i + 1] == comboComponents[..i] + [comboComponents[i]];
      groups, order := AddRow(groups, order, comboComponents[..i], comboComponents[i], designMap);
    }
    assert comboComponents[..|comboComponents|] == comboComponents;
  }

  /** `Array.from(combos.values())`: the groups in key order. */
  method InOrder(groups: map<string, ComboView>, order: seq<string>) returns (views: seq<ComboView>)
    requires forall c :: c in order ==> c in groups
    ensures |views| == |order|
    ensures forall k :: 0 <= k < |order| ==> views[k] == groups[order[k]]
  {
    views := [];
    for k := 0 to |order|
      invariant |views| == k
      invariant forall j :: 0 <= j < k ==> views[j] == groups[order[j]]
    {
      assert order[k] in order;
      views := views + [groups[order[k]]];
    }
  }

  /**
   * `GET`: 401 without the cookie, 500 when either query fails, otherwise one
   * group per combo id in order of first appearance, each with its components
   * in row order, names defaulting to 'Unknown' and the flag to false. The
   * rows are the query's, in `ReadOrder`.
   */
  method Get(cookie: Option<string>, comboRows: Option<seq<ComboEdge>>, designRows: Option<seq<DesignRow>>)
    returns (status: Status, combos: seq<ComboView>)
    ensures !HasAdminCookie(cookie) ==> status == Unauthorized && combos == []
    ensures HasAdminCookie(cookie) && (comboRows.None? || designRows.None?) ==> status == ServerError && combos == []
    ensures HasAdminCookie(cookie) && comboRows.Some? && designRows.Some? ==>
      status == Ok &&
      |combos| == |FirstAppearance(comboRows.value)| &&
      forall k :: 0 <= k < |combos| ==>
        combos[k] == GroupView(comboRows.value, DesignLookup(designRows.value), FirstAppearance(comboRows.value)[k])
  {
    combos := [];
    if !HasAdminCookie(cookie) {
      return Unauthorized, [];
    }
    if comboRows.None? || designRows.None? {
      return ServerError, [];
    }
    var designMap := DesignLookup(designRows.value);
    var groups, order := GroupRows(comboRows.value, designMap);
    combos := InOrder(groups, order);
    status := Ok;
  }

  /**
   * GET lists every combo that has rows exactly once, and each group's
   * components are the registry's list for that combo.
   */
  lemma GetMatchesRegistry(edges: seq<ComboEdge>, lookup: map<string, DesignRow>, k: nat)
    requires k < |FirstAppearance(edges)|
    ensures var c := FirstAppearance(edges)[k];
      c in Grouped(edges) &&
      |GroupView(edges, lookup, c).components| == |Grouped(edges)[c]| &&
      forall j :: 0 <= j < |Grouped(edges)[c]| ==>
        GroupView(edges, lookup, c).components[j].componentId == Grouped(edges)[c][j].component &&
        GroupView(edges, lookup, c).components[j].multiplier == Grouped(edges)[c][j].multiplier
  {
    assert FirstAppearance(edges)[k] in FirstAppearance(edges);
  }
}
