/**
 * The combo editor of the admin screen (src/components/AdminCombosClient.tsx):
 * the dialog's form state, the validation run before a save, and the design
 * lists offered in the two selectors.
 */
module AdminCombosClient {
  import opened Wrappers
  import opened ListOps
  import opened CombosRoute

  /** The entry `addComponent` appends and the create dialog starts with. */
  function BlankComponent(): ComponentInput {
    ComponentInput("", 1)
  }

  // ---------------------------------------------------------------------------
  // Validation
  // ---------------------------------------------------------------------------

  /** What `handleSubmit` does: stop at the first failed check, or send the POST. */
  datatype Verdict = NoComboSelected | IncompleteComponent | DuplicateComponent | SelfReference | Send

  function ComponentIds(components: seq<ComponentInput>): (ids: seq<string>)
    ensures |ids| == |components|
    ensures forall k :: 0 <= k < |ids| ==> ids[k] == components[k].componentId
  {
    seq(|components|, k requires 0 <= k < |components| => components[k].componentId)
  }

  /** `componentIds.length !== new Set(componentIds).size`. */
  predicate SizeDiffersFromSet(ids: seq<string>) {
    |ids| != |set x | x in ids|
  }

  /** Some id is listed at two positions. */
  predicate HasRepeat(ids: seq<string>) {
    exists i, j :: 0 <= i < j < |ids| && ids[i] == ids[j]
  }

  /** A set of distinct entries never has more members than the list has entries. */
  lemma {:induction false} SetOfSeqBound(ids: seq<string>)
    ensures |set x | x in ids| <= |ids|
  {
    if ids != [] {
      var prefix := ids[..|ids| - 1];
      SetOfSeqBound(prefix);
      assert ids == prefix + [ids[|ids| - 1]];
      assert (set x | x in ids) == (set x | x in prefix) + {ids[|ids| - 1]};
    }
  }

  /** The size comparison detects exactly the lists that repeat an id. */
  lemma {:induction false} DuplicateCheckIff(ids: seq<string>)
    ensures SizeDiffersFromSet(ids) <==> HasRepeat(ids)
  {
    if ids != [] {
      var prefix := ids[..|ids| - 1];
      DuplicateCheckIff(prefix);
      SetOfSeqBound(prefix);
      SetOfSnoc(ids);
      HasRepeatSnoc(ids);
    }
  }

  /** Adding an entry adds a member to the set exactly when it is new. */
  lemma SetOfSnoc(ids: seq<string>)
    requires ids != []
    ensures var prefix, last := ids[..|ids| - 1], ids[|ids| - 1];
      |set x | x in ids| == |set x | x in prefix| + (if last in prefix then 0 else 1)
  {
    var prefix, last := ids[..|ids| - 1], ids[|ids| - 1];
    assert ids == prefix + [last];
    assert (set x | x in ids) == (set x | x in prefix) + {last};
  }

  /** A list repeats an id exactly when its prefix does or its last entry is already in the prefix. */
  lemma HasRepeatSnoc(ids: seq<string>)
    requires ids != []
    ensures HasRepeat(ids) <==> HasRepeat(ids[..|ids| - 1]) || ids[|ids| - 1] in ids[..|ids| - 1]
  {
    var prefix, last := ids[..|ids| - 1], ids[|ids| - 1];
    if HasRepeat(prefix) {
      var i, j :| 0 <= i < j < |prefix| && prefix[i] == prefix[j];
      assert ids[i] == ids[j];
    }
    if last in prefix {
      var i :| 0 <= i < |prefix| && prefix[i] == last;
      assert ids[i] == ids[|ids| - 1];
    }
    if HasRepeat(ids) {
      var i, j :| 0 <= i < j < |ids| && ids[i] == ids[j];
      if j < |prefix| {
        assert prefix[i] == prefix[j];
      } else {
        assert prefix[i] == last;
      }
    }
  }

  /**
   * The checks of `handleSubmit`, first failure wins: a combo must be chosen,
   * every component needs an id and a positive multiplier, no id may repeat,
   * and the combo may not list itself.
   */
  function ValidateCombo(selectedComboId: string, components: seq<ComponentInput>): (v: Verdict)
    ensures v == NoComboSelected <==> selectedComboId == ""
    ensures v == IncompleteComponent <==>
      selectedComboId != "" && exists k :: 0 <= k < |components| && !ComponentAccepted(components[k])
    ensures v == DuplicateComponent <==>
      selectedComboId != "" && (forall k :: 0 <= k < |components| ==> ComponentAccepted(components[k])) &&
      exists i, j :: 0 <= i < j < |components| && components[i].componentId == components[j].componentId
    ensures v == SelfReference <==>
      selectedComboId != "" && (forall k :: 0 <= k < |components| ==> ComponentAccepted(components[k])) &&
      (forall i, j :: 0 <= i < j < |components| ==> components[i].componentId != components[j].componentId) &&
      exists k :: 0 <= k < |components| && components[k].componentId == selectedComboId
  {
    var ids := ComponentIds(components);
    DuplicateCheckIff(ids);
    if selectedComboId == "" then NoComboSelected
    else if exists k :: 0 <= k < |components| && (components[k].componentId == "" || components[k].multiplier <= 0) then IncompleteComponent
    else if SizeDiffersFromSet(ids) then DuplicateComponent
    else if selectedComboId in ids then SelfReference
    else Send
  }

  /**
   * Whatever the screen sends, the server accepts: the screen's checks include
   * the server's (its component list is never empty).
   */
  lemma ClientChecksIncludeServerChecks(selectedComboId: string, components: seq<ComponentInput>)
    requires |components| > 0
    requires ValidateCombo(selectedComboId, components) == Send
    ensures PostAccepted(PostBody(selectedComboId, Some(components)))
  {
  }

  /** The converse fails: the server stores a repeated component and a self-reference that the screen refuses. */
  lemma ServerIsLaxer()
    ensures var twice := [ComponentInput("2", 1), ComponentInput("2", 1)];
      ValidateCombo("1", twice) == DuplicateComponent && PostAccepted(PostBody("1", Some(twice)))
    ensures var itself := [ComponentInput("1", 1)];
      ValidateCombo("1", itself) == SelfReference && PostAccepted(PostBody("1", Some(itself)))
  {
    var twice := [ComponentInput("2", 1), ComponentInput("2", 1)];
    assert twice[0].componentId == twice[1].componentId;
    var itself := [ComponentInput("1", 1)];
    assert itself[0].componentId == "1";
    ServerAcceptsDuplicateAndSelfReference();
  }

  // ---------------------------------------------------------------------------
  // Selector contents
  // ---------------------------------------------------------------------------

  /** `getAvailableComponentDesigns`: the designs not flagged as combos, in order. */
  function ComponentChoices(designs: seq<DesignRow>): (r: seq<DesignRow>)
    ensures forall d :: d in r <==> d in designs && !d.isCombo
    ensures |r| <= |designs|
  {
    if designs == [] then []
    else
      var prefix := designs[..|designs| - 1];
      var d := designs[|designs| - 1];
      assert designs == prefix + [d];
      ComponentChoices(prefix) + (if !d.isCombo then [d] else [])
  }

  /** Each non-combo design is offered as often as the catalog lists it; no combo is offered. */
  lemma {:induction false} ComponentChoicesCounts(designs: seq<DesignRow>, d: DesignRow)
    ensures multiset(ComponentChoices(designs))[d] == if !d.isCombo then multiset(designs)[d] else 0
  {
    if designs != [] {
      var prefix := designs[..|designs| - 1];
      assert designs == prefix + [designs[|designs| - 1]];
      ComponentChoicesCounts(prefix, d);
    }
  }

  /** Filtering a concatenation filters each part: the choices keep the catalog's order. */
  lemma {:induction false} ComponentChoicesAppend(a: seq<DesignRow>, b: seq<DesignRow>)
    ensures ComponentChoices(a + b) == ComponentChoices(a) + ComponentChoices(b)
    decreases |b|
  {
    if b == [] {
      assert a + b == a;
    } else {
      var b', x := b[..|b| - 1], b[|b| - 1];
      var tail := if !x.isCombo then [x] else [];
      assert (a + b)[..|a + b| - 1] == a + b' && (a + b)[|a + b| - 1] == x;
      assert ComponentChoices(a + b) == ComponentChoices(a + b') + tail;
      assert ComponentChoices(b) == ComponentChoices(b') + tail;
      ComponentChoicesAppend(a, b');
    }
  }

  /** `getAvailableDesignsForCombo`: the non-combo designs and the one being edited, in order. */
  function ComboChoices(designs: seq<DesignRow>, selectedComboId: string): (r: seq<DesignRow>)
    ensures forall d :: d in r <==> d in designs && (!d.isCombo || d.id == selectedComboId)
  {
    if designs == [] then []
    else
      var prefix := designs[..|designs| - 1];
      var d := designs[|designs| - 1];
      assert designs == prefix + [d];
      ComboChoices(prefix, selectedComboId) + (if !d.isCombo || d.id == selectedComboId then [d] else [])
  }

  /**
   * The combo selector offers the component choices plus the selected design;
   * no combo is ever offered as a component.
   */
  lemma ChoicesRelated(designs: seq<DesignRow>, selectedComboId: string)
    ensures forall d :: d in ComboChoices(designs, selectedComboId) <==>
      d in ComponentChoices(designs) || (d in designs && d.id == selectedComboId)
    ensures forall d :: d in ComponentChoices(designs) ==> !d.isCombo
  {
  }

  // ---------------------------------------------------------------------------
  // The multiplier field
  // ---------------------------------------------------------------------------

  /** `parseInt(value) || 1`: an unparsable or zero entry becomes 1; other numbers pass through. */
  function MultiplierEntry(parsed: Option<int>): (m: int)
    ensures m != 0
    ensures parsed.Some? && parsed.value != 0 ==> m == parsed.value
    ensures parsed.None? || parsed.value == 0 ==> m == 1
  {
    if parsed.None? || parsed.value == 0 then 1 else parsed.value
  }

  /** A negative entry gets through the field but not through validation. */
  lemma NegativeEntryRejected(selectedComboId: string, components: seq<ComponentInput>, k: nat, n: int)
    requires selectedComboId != "" && k < |components| && n < 0
    requires components[k] == ComponentInput(components[k].componentId, MultiplierEntry(Some(n)))
    ensures ValidateCombo(selectedComboId, components) == IncompleteComponent
  {
  }

  // ---------------------------------------------------------------------------
  // The dialog
  // ---------------------------------------------------------------------------

  /** Which field `updateComponent` sets, with the new value. */
  datatype FieldUpdate = SetComponentId(id: string) | SetMultiplier(m: int)

  function ApplyUpdate(c: ComponentInput, u: FieldUpdate): ComponentInput {
    match u
    case SetComponentId(id) => c.(componentId := id)
    case SetMultiplier(m) => c.(multiplier := m)
  }

  /** The form entries the edit dialog loads from a combo, in order. */
  function FormEntries(combo: ComboView): (r: seq<ComponentInput>)
    ensures |r| == |combo.components|
    ensures forall k :: 0 <= k < |r| ==>
      r[k] == ComponentInput(combo.components[k].componentId, combo.components[k].multiplier)
  {
    seq(|combo.components|, k requires 0 <= k < |combo.components| =>
      ComponentInput(combo.components[k].componentId, combo.components[k].multiplier))
  }

  class ComboDialog {
    var selectedComboId: string
    var components: seq<ComponentInput>
    var isOpen: bool
    var isSubmitting: bool

    constructor()
      ensures selectedComboId == "" && components == [BlankComponent()] && !isOpen && !isSubmitting
    {
      selectedComboId := "";
      components := [BlankComponent()];
      isOpen := false;
      isSubmitting := false;
    }

    /** `openCreateDialog`: no combo chosen and one blank component. */
    method OpenCreate()
      modifies this
      ensures selectedComboId == "" && components == [BlankComponent()] && isOpen
      ensures isSubmitting == old(isSubmitting)
    {
      selectedComboId := "";
      components := [BlankComponent()];
      isOpen := true;
    }

    /** `openEditDialog`: the combo's id and its components, in order. */
    method OpenEdit(combo: ComboView)
      modifies this
      ensures selectedComboId == combo.comboId && components == FormEntries(combo) && isOpen
      ensures isSubmitting == old(isSubmitting)
    {
      selectedComboId := combo.comboId;
      components := FormEntries(combo);
      isOpen := true;
    }

    /** `addComponent`: one blank entry at the end, the others as they were. */
    method AddComponent()
      modifies this
      ensures components == old(components) + [BlankComponent()]
      ensures selectedComboId == old(selectedComboId) && isOpen == old(isOpen) && isSubmitting == old(isSubmitting)
    {
      components := components + [BlankComponent()];
    }

    /** `removeComponent`: refused when one entry is left; otherwise the entry at `index` goes. */
    method RemoveComponent(index: int)
      modifies this
      ensures |old(components)| == 1 ==> components == old(components)
      ensures |old(components)| != 1 ==> components == RemoveAt(old(components), index)
      ensures selectedComboId == old(selectedComboId) && isOpen == old(isOpen) && isSubmitting == old(isSubmitting)
    {
      if |components| == 1 {
        return;
      }
      components := RemoveAt(components, index);
    }

    /** `updateComponent`: the named field of the entry at `index`, nothing else. */
    method UpdateComponent(index: nat, u: FieldUpdate)
      requires index < |components|
      modifies this
      ensures components == old(components)[index := ApplyUpdate(old(components)[index], u)]
      ensures selectedComboId == old(selectedComboId) && isOpen == old(isOpen) && isSubmitting == old(isSubmitting)
    {
      var newComponents := components;
      newComponents := newComponents[index := ApplyUpdate(newComponents[index], u)];
      components := newComponents;
    }

    /**
     * `handleSubmit`, given whether the POST succeeds: nothing is sent unless
     * every check passes, the dialog closes only after a successful save, and
     * the submitting flag is clear at the end of every path.
     */
    method Submit(responseOk: bool) returns (verdict: Verdict, sent: bool)
      modifies this
      ensures verdict == ValidateCombo(old(selectedComboId), old(components))
      ensures sent <==> verdict == Send
      ensures isOpen == (old(isOpen) && !(sent && responseOk))
      ensures selectedComboId == old(selectedComboId) && components == old(components)
      ensures !isSubmitting
    {
      isSubmitting := true;
      verdict := ValidateCombo(selectedComboId, components);
      if verdict != Send {
        isSubmitting := false;
        return verdict, false;
      }
      sent := true;
      if responseOk {
        isOpen := false;
      }
      isSubmitting := false;
    }
  }

  /**
   * Removing keeps at least one entry, and from a list of two or more it takes
   * out exactly the entry at a valid index.
   */
  lemma RemoveKeepsOneEntry(components: seq<ComponentInput>, index: int)
    requires |components| >= 1
    ensures var after := if |components| == 1 then components else RemoveAt(components, index);
      |after| >= 1 &&
      (|components| > 1 && 0 <= index < |components| ==> after == components[..index] + components[index + 1..])
  {
    if |components| > 1 && 0 <= index < |components| {
      RemoveAtIsSplice(components, index);
    }
  }
}
