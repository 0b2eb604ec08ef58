/** `App`, the state of the terminal interface: the tunnel definitions, the order they
    are listed in (filtered by the search text and grouped by kubectl context), the
    selection and the visual-mode range, and the edit form with its suggestions. */
module TerminalApp {
  import opened Wrappers
  import opened Strings
  import opened Types
  import opened Collections
  import opened Registry
  import EF = EditFields
  import FormState

  datatype Mode = Normal | Visual | Search | Help | Edit | Create | Confirm

  /** One line of a tunnel's log panel. */
  datatype LogEntry = LogEntry(line: string, isStderr: bool)

  /** The suggestions offered while editing (`AutocompleteState`). */
  datatype AutocompleteState = AutocompleteState(
    contexts: seq<string>,
    namespaces: seq<string>,
    services: seq<string>,
    ports: seq<string>,
    types: seq<string>,
    selectedIndex: nat,
    loading: bool,
    focused: bool,
    typing: bool)

  /** `AutocompleteState::default()`: no suggestions except the two backends. */
  function DefaultAutocomplete(): (a: AutocompleteState)
    ensures a.types == ["kubectl", "ssh"] && a.selectedIndex == 0
    ensures a.contexts == a.namespaces == a.services == a.ports == []
  {
    AutocompleteState([], [], [], [], ["kubectl", "ssh"], 0, false, false, false)
  }

  // ---------------------------------------------------------------------------
  // The listing order

  /** Whether a definition is found by an already lowercased search text: in its name,
      service, namespace or context, ignoring case. */
  predicate Matches(c: PortForwardConfig, query: string) {
    || Contains(ToLower(c.name), query)
    || Contains(ToLower(c.service), query)
    || Contains(ToLower(c.namespace), query)
    || Contains(ToLower(c.context), query)
  }

  /** Positions in strictly ascending order. */
  predicate Ascending(s: seq<nat>) {
    forall p, q :: 0 <= p < q < |s| ==> s[p] < s[q]
  }

  /** The positions below `n` of the definitions the search text finds, ascending. */
  function FoundBelow(configs: seq<PortForwardConfig>, query: string, n: nat): (r: seq<nat>)
    requires n <= |configs|
    ensures forall i :: i in r <==> 0 <= i < n && Matches(configs[i], query)
    ensures Ascending(r)
    ensures forall p :: 0 <= p < |r| ==> r[p] < n
  {
    if n == 0 then []
    else FoundBelow(configs, query, n - 1) + (if Matches(configs[n - 1], query) then [n - 1] else [])
  }

  /** The positions of the definitions a search text finds, ascending. */
  function Found(configs: seq<PortForwardConfig>, search: string): (r: seq<nat>)
    ensures forall i :: i in r <==> 0 <= i < |configs| && Matches(configs[i], ToLower(search))
  {
    FoundBelow(configs, ToLower(search), |configs|)
  }

  /** The positions below `n`, ascending. */
  function Positions(n: nat): (r: seq<nat>)
    ensures |r| == n
    ensures forall i :: 0 <= i < n ==> r[i] == i
  {
    if n == 0 then [] else Positions(n - 1) + [n - 1]
  }

  /** The empty search text finds every definition. */
  lemma {:induction false} EmptySearchFindsAll(configs: seq<PortForwardConfig>, n: nat)
    requires n <= |configs|
    ensures FoundBelow(configs, [], n) == Positions(n)
  {
    if n > 0 {
      EmptySearchFindsAll(configs, n - 1);
      ContainsEmpty(ToLower(configs[n - 1].name));
    }
  }

  /** The context a position is listed under. */
  function ContextOf(configs: seq<PortForwardConfig>): nat -> string {
    (i: nat) => if i < |configs| then configs[i].context else []
  }

  /** The contexts of the given positions. */
  function ContextsOf(configs: seq<PortForwardConfig>, positions: seq<nat>): set<string> {
    set i | i in positions :: ContextOf(configs)(i)
  }

  /** The listing order: the found positions grouped by context, contexts ascending. */
  function VisualOrder(configs: seq<PortForwardConfig>, search: string): seq<nat> {
    var found := Found(configs, search);
    Gather(found, ContextOf(configs), Sorted(ContextsOf(configs, found)))
  }

  /** The listing shows exactly the found definitions, each once. */
  lemma VisualOrderPermutes(configs: seq<PortForwardConfig>, search: string)
    ensures multiset(VisualOrder(configs, search)) == multiset(Found(configs, search))
    ensures forall i :: i in VisualOrder(configs, search) <==> 0 <= i < |configs| && Matches(configs[i], ToLower(search))
  {
    var found := Found(configs, search);
    var ks := Sorted(ContextsOf(configs, found));
    AscendingDistinct(ks);
    GatherPermutes(found, ContextOf(configs), ks);
    var order := VisualOrder(configs, search);
    forall i
      ensures i in order <==> i in found
    {
      assert i in order <==> i in multiset(order);
    }
  }

  /** The listing is ordered by context. */
  lemma VisualOrderByContext(configs: seq<PortForwardConfig>, search: string)
    ensures KeyOrdered(VisualOrder(configs, search), ContextOf(configs))
  {
    var found := Found(configs, search);
    GatherAscending(found, ContextOf(configs), Sorted(ContextsOf(configs, found)));
  }

  /** Within one context the listing keeps the order of the found definitions. */
  lemma VisualOrderKeepsGroups(configs: seq<PortForwardConfig>, search: string, k: string)
    ensures Select(VisualOrder(configs, search), ContextOf(configs), k)
         == Select(Found(configs, search), ContextOf(configs), k)
  {
    var found := Found(configs, search);
    var key := ContextOf(configs);
    var ks := Sorted(ContextsOf(configs, found));
    AscendingDistinct(ks);
    GatherKeepsGroups(found, key, ks, k);
    if k !in ks {
      forall x | x in found
        ensures key(x) != k
      {
        assert key(x) in ContextsOf(configs, found);
      }
      SelectNone(found, key, k);
    }
  }

  /** Within one context the listing keeps ascending definition positions. */
  lemma {:induction false} SelectAscending(xs: seq<nat>, key: nat -> string, k: string)
    requires Ascending(xs)
    ensures Ascending(Select(xs, key, k))
    decreases |xs|
  {
    if xs != [] {
      var init := xs[..|xs| - 1];
      SelectAscending(init, key, k);
      var s := Select(xs, key, k);
      var a := Select(init, key, k);
      var last := xs[|xs| - 1];
      assert s == a + (if key(last) == k then [last] else []);
      forall p, q | 0 <= p < q < |s|
        ensures s[p] < s[q]
      {
        if q >= |a| {
          assert s[q] == last;
          assert s[p] == a[p] && a[p] in a;
          var m :| 0 <= m < |init| && init[m] == s[p];
          assert init[m] == xs[m] && m < |xs| - 1;
          assert xs[m] < last;
        } else {
          assert s[p] == a[p] && s[q] == a[q];
        }
      }
    }
  }

  /** Within one context the listing shows definitions in the order they are defined. */
  lemma VisualOrderWithinContext(configs: seq<PortForwardConfig>, search: string, k: string)
    ensures Ascending(Select(VisualOrder(configs, search), ContextOf(configs), k))
  {
    VisualOrderKeepsGroups(configs, search, k);
    SelectAscending(Found(configs, search), ContextOf(configs), k);
  }

  // ---------------------------------------------------------------------------
  // Wrapping positions

  /** The position after `i` among `n`, wrapping to the first. */
  function NextSlot(i: nat, n: nat): (j: nat)
    requires n > 0
    ensures j < n
  {
    (i + 1) % n
  }

  /** The position before `i` among `n`, wrapping to the last. */
  function PrevSlot(i: nat, n: nat): (j: nat)
    requires n > 0
    ensures i <= n ==> j < n
  {
    if i == 0 then n - 1 else i - 1
  }

  /** Stepping forward and back, or back and forward, returns to a valid position. */
  lemma SlotsInverse(i: nat, n: nat)
    requires i < n
    ensures PrevSlot(NextSlot(i, n), n) == i
    ensures NextSlot(PrevSlot(i, n), n) == i
  {
    NextSlotValue(i, n);
    NextSlotValue(PrevSlot(i, n), n);
  }

  /** The next position is one further, except after the last. */
  lemma NextSlotValue(i: nat, n: nat)
    requires i < n
    ensures NextSlot(i, n) == if i + 1 < n then i + 1 else 0
  {
    if i + 1 == n {
      assert (i + 1) % n == n % n;
    }
  }

  /** Moving the selection by one step either way is stepping to the next or the
      previous position. */
  lemma MoveByOne(i: nat, n: nat)
    requires i < n
    ensures (i + 1) % n == NextSlot(i, n)
    ensures (i + -1) % n == PrevSlot(i, n)
  {
    if i == 0 {
      assert -1 == (-1) * n + (n - 1);
    }
  }

  // ---------------------------------------------------------------------------
  // Proposed names

  /** `App::derive_config_name`. */
  function DeriveConfigName(config: PortForwardConfig): (name: string)
    ensures config.forwardType == Kubectl && config.service == [] ==> name == "new-forward"
    ensures config.forwardType == Kubectl && config.service != [] ==> config.service + "-" <= name
  {
    var port := if config.ports == [] then "unknown" else Split(config.ports[0], ':')[0];
    match config.forwardType
    case Ssh => FormState.AfterLastAt(config.service) + "-" + port
    case Kubectl => if config.service == [] then "new-forward" else config.service + "-" + port
  }

  /** The terminal proposes the same name as the desktop form unless a part is empty:
      a kubectl service, the ssh host after its `@`, or the first mapping's local port. */
  lemma SameNameAsDesktop(config: PortForwardConfig)
    requires config.forwardType == Kubectl ==> config.service != []
    requires config.forwardType == Ssh ==> FormState.AfterLastAt(config.service) != []
    requires config.ports != [] ==> Split(config.ports[0], ':')[0] != []
    ensures DeriveConfigName(config)
         == FormState.DeriveConfigName(config.forwardType, config.service, config.service, config.ports)
  {
  }

  /** Where a part is empty the two differ: an unnamed kubectl service is `new-forward`
      here but starts with a dash on the desktop, and an empty local port stays empty
      here but reads `unknown` there. */
  lemma NamesDifferOnEmptyParts(c: PortForwardConfig)
    ensures c.forwardType == Kubectl && c.service == [] ==>
              DeriveConfigName(c) != FormState.DeriveConfigName(Kubectl, [], [], c.ports)
    ensures c.forwardType == Kubectl && c.service != [] && c.ports != [] && Split(c.ports[0], ':')[0] == [] ==>
              DeriveConfigName(c) == c.service + "-"
              && FormState.DeriveConfigName(Kubectl, c.service, [], c.ports) == c.service + "-unknown"
  {
    if c.forwardType == Kubectl && c.service == [] {
      FormState.EmptyServiceName([], c.ports);
      assert "new-forward"[0] == 'n';
    }
  }

  /** The proposed name does not depend on the name already in the definition. */
  lemma DeriveIgnoresName(c: PortForwardConfig, name: string)
    ensures DeriveConfigName(c.(name := name)) == DeriveConfigName(c)
  {
  }

  // ---------------------------------------------------------------------------
  // The edit form on values

  /** The text field `index` shows for the edited definition: empty without one or for a
      position past the last field. */
  function FieldText(config: Option<PortForwardConfig>, index: nat): (v: string)
    ensures index >= EF.Count() || config.None? ==> v == []
    ensures index < EF.Count() && config.Some? ==> v == EF.GetValue(EF.All[index], config.value)
  {
    match EF.FromIndex(index)
    case None => []
    case Some(field) => if config.Some? then EF.GetValue(field, config.value) else []
  }

  /** The edited definition once `value` is stored into field `index`: only that field's
      part changes, except that a field which regenerates names renames a definition
      whose name is still proposed after its new service, ports and backend. */
  function Stored(config: Option<PortForwardConfig>, index: nat, value: string, proposes: bool): (r: Option<PortForwardConfig>)
    ensures r.Some? <==> config.Some?
    ensures index >= EF.Count() ==> r == config
    ensures index < EF.Count() && config.Some? ==>
              var field := EF.All[index];
              var typed := EF.SetValue(field, config.value, value);
              && r.value.(name := typed.name) == typed
              && r.value.name == (if proposes && EF.TriggersNameGeneration(field) then DeriveConfigName(r.value) else typed.name)
  {
    if index >= EF.Count() || config.None? then config
    else
      var field := EF.All[index];
      var typed := EF.SetValue(field, config.value, value);
      if proposes && EF.TriggersNameGeneration(field) then
        var derived := DeriveConfigName(typed);
        DeriveIgnoresName(typed, derived);
        Some(typed.(name := derived))
      else
        Some(typed)
  }

  /** Entering a field stores back the text it shows. A field that survives being shown
      and read back is left as it was, so the only change is a proposed name being
      regenerated. */
  lemma RestoreShown(c: PortForwardConfig, index: nat, proposes: bool)
    requires index < EF.Count() && EF.ShowsFaithfully(EF.All[index], c)
    ensures Stored(Some(c), index, FieldText(Some(c), index), proposes)
         == Some(if proposes && EF.TriggersNameGeneration(EF.All[index]) then c.(name := DeriveConfigName(c)) else c)
  {
    EF.SetGetRoundTrip(EF.All[index], c);
  }

  /** The suggestions listed for field `index`. */
  function SuggestionsFor(a: AutocompleteState, index: nat): (s: seq<string>)
    ensures index == 6 ==> s == a.types
    ensures index in {0, 5} || index >= 7 ==> s == []
  {
    match index
    case 1 => a.contexts
    case 2 => a.namespaces
    case 3 => a.services
    case 4 => a.ports
    case 6 => a.types
    case _ => []
  }

  /** Where the selection goes when it follows the field's text: the first suggestion
      equal to the text, or the first suggestion when none is. */
  function SelectionOf(suggestions: seq<string>, shown: string): (i: nat)
    ensures shown in suggestions ==> i < |suggestions| && suggestions[i] == shown && shown !in suggestions[..i]
    ensures shown !in suggestions ==> i == 0
  {
    if shown !in suggestions || suggestions[0] == shown then 0
    else
      var j := SelectionOf(suggestions[1..], shown);
      assert suggestions[..j + 1] == [suggestions[0]] + suggestions[1..][..j];
      j + 1
  }

  /** The part of `load_autocomplete` that runs before its query is handed to another
      thread: the selection goes back to the first suggestion and, while a definition is
      edited, a field whose suggestions come from kubectl drops its old list and waits. */
  function Loading(a: AutocompleteState, index: nat, editing: bool): (r: AutocompleteState)
    ensures r.selectedIndex == 0 && r.types == a.types && r.focused == a.focused && r.typing == a.typing
    ensures editing && 1 <= index <= 4 ==> SuggestionsFor(r, index) == [] && r.loading
    ensures forall j :: j != index ==> SuggestionsFor(r, j) == SuggestionsFor(a, j)
    ensures !editing || index !in {1, 2, 3, 4} ==> r == a.(selectedIndex := 0)
  {
    var reset := a.(selectedIndex := 0);
    if !editing then reset
    else
      match index
      case 1 => reset.(contexts := [], loading := true)
      case 2 => reset.(namespaces := [], loading := true)
      case 3 => reset.(services := [], loading := true)
      case 4 => reset.(ports := [], loading := true)
      case _ => reset
  }

  /** The suggestions once the form has moved to field `index`, which shows `shown`:
      focus and typing end; a field without suggestions resets them; a field with
      suggestions is loaded, and the backend field selects the backend it shows. */
  function Refreshed(a: AutocompleteState, index: nat, editing: bool, shown: string): (r: AutocompleteState)
    ensures !r.focused && !r.typing
    ensures index < EF.Count() && !EF.SupportsAutocomplete(EF.All[index]) ==> r == DefaultAutocomplete()
    ensures index < EF.Count() && EF.SupportsAutocomplete(EF.All[index]) ==> r.types == a.types
    ensures editing && 1 <= index <= 4 ==> SuggestionsFor(r, index) == [] && r.loading && r.selectedIndex == 0
    ensures index == 6 && shown in a.types ==> r.selectedIndex < |r.types| && r.types[r.selectedIndex] == shown
  {
    var unfocused := a.(focused := false, typing := false);
    match EF.FromIndex(index)
    case None => unfocused
    case Some(field) =>
      if !EF.SupportsAutocomplete(field) then DefaultAutocomplete()
      else
        var loaded := Loading(unfocused, index, editing);
        if field == EF.ForwardType then loaded.(selectedIndex := SelectionOf(SuggestionsFor(loaded, index), shown))
        else loaded
  }

  /** With the two backends on offer, entering the backend field selects the backend the
      definition has: `kubectl` first, `ssh` second. */
  lemma BackendFieldSelectsCurrent(a: AutocompleteState, c: PortForwardConfig, editing: bool)
    requires a.types == DefaultAutocomplete().types
    ensures var r := Refreshed(a, 6, editing, FieldText(Some(c), 6));
            r.selectedIndex == (if c.forwardType == Ssh then 1 else 0)
  {
    var shown := FieldText(Some(c), 6);
    assert shown == (if c.forwardType == Ssh then "ssh" else "kubectl");
    assert a.types[0] == "kubectl" && a.types[1] == "ssh";
    assert shown in a.types;
    var r := Refreshed(a, 6, editing, shown);
    if c.forwardType == Ssh {
      assert a.types[0] != shown;
    }
  }

  // ---------------------------------------------------------------------------
  // The application state

  class App {
    var mode: Mode
    var configs: seq<PortForwardConfig>
    /** Running tunnels by name, with their pids. */
    var runningServices: map<string, Pid>
    /** A position in `visualOrder`. */
    var selectedIndex: nat
    var visualAnchor: Option<nat>
    var searchQuery: string
    /** Positions in `configs`, in listing order. */
    var visualOrder: seq<nat>
    var statusMessage: Option<string>
    const processManager: ProcessManager
    var editConfig: Option<PortForwardConfig>
    var editOriginalConfig: Option<PortForwardConfig>
    var editFieldIndex: nat
    var editFieldValue: string
    var editCursorPos: nat
    var nameManuallyEdited: bool
    var autocomplete: AutocompleteState

    /** `App::new` once the definitions are loaded: nothing selected, nothing edited,
        all definitions listed. */
    constructor New(loaded: seq<PortForwardConfig>, registry: ProcessManager)
      ensures configs == loaded && processManager == registry
      ensures mode == Normal && runningServices == map[] && searchQuery == []
      ensures visualOrder == VisualOrder(loaded, []) && selectedIndex == 0 && visualAnchor.None?
      ensures editConfig.None? && editOriginalConfig.None? && editFieldIndex == 0
      ensures autocomplete == DefaultAutocomplete()
    {
      // `update_visual_order` on a fresh state: selection 0 is kept either way
      var order := ListingOrder(loaded, []);
      mode := Normal;
      configs := loaded;
      runningServices := map[];
      selectedIndex := 0;
      visualAnchor := None;
      searchQuery := [];
      visualOrder := order;
      statusMessage := None;
      processManager := registry;
      editConfig := None;
      editOriginalConfig := None;
      editFieldIndex := 0;
      editFieldValue := [];
      editCursorPos := 0;
      nameManuallyEdited := false;
      autocomplete := DefaultAutocomplete();
    }

    /** `update_visual_order`: lists the found definitions grouped by context and keeps
        the selection inside the list. */
    method UpdateVisualOrder()
      modifies this`visualOrder, this`selectedIndex
      ensures visualOrder == VisualOrder(configs, searchQuery)
      ensures visualOrder != [] ==> selectedIndex < |visualOrder|
      ensures selectedIndex == if old(selectedIndex) >= |visualOrder| && visualOrder != []
                               then |visualOrder| - 1 else old(selectedIndex)
    {
      var listed, query := configs, searchQuery;
      var order := ListingOrder(listed, query);
      var index := selectedIndex;
      if index >= |order| && order != [] {
        index := |order| - 1;
      }
      visualOrder, selectedIndex := order, index;
      assert configs == listed && searchQuery == query;
    }

    /** `move_selection`: moves by `delta` and wraps around the ends of the list. */
    method MoveSelection(delta: int)
      modifies this`selectedIndex
      ensures visualOrder == [] ==> selectedIndex == old(selectedIndex)
      ensures visualOrder != [] ==> selectedIndex == (old(selectedIndex) + delta) % |visualOrder|
      ensures visualOrder != [] ==> selectedIndex < |visualOrder|
    {
      if visualOrder == [] {
        return;
      }
      var len := |visualOrder|;
      selectedIndex := (selectedIndex + delta) % len;
    }

    /** `select_first`. */
    method SelectFirst()
      modifies this`selectedIndex
      ensures selectedIndex == 0
    {
      selectedIndex := 0;
    }

    /** `select_last`: the last entry, if the list has one. */
    method SelectLast()
      modifies this`selectedIndex
      ensures visualOrder != [] ==> selectedIndex == |visualOrder| - 1
      ensures visualOrder == [] ==> selectedIndex == old(selectedIndex)
    {
      if visualOrder != [] {
        selectedIndex := |visualOrder| - 1;
      }
    }

    /** `visual_selection_range`: the anchor and the selection, smaller first. */
    function VisualSelectionRange(): (r: Option<(nat, nat)>)
      reads this
      ensures r.None? <==> visualAnchor.None?
      ensures r.Some? ==> r.value.0 <= r.value.1
      ensures r.Some? ==> {r.value.0, r.value.1} == {visualAnchor.value, selectedIndex}
    {
      match visualAnchor
      case None => None
      case Some(anchor) =>
        Some((if anchor <= selectedIndex then anchor else selectedIndex,
              if anchor <= selectedIndex then selectedIndex else anchor))
    }

    /** `is_in_visual_selection`: only in visual mode, and then between the anchor and
        the selection, both included. */
    function IsInVisualSelection(visualIdx: nat): (b: bool)
      reads this
      ensures b <==> mode == Visual && visualAnchor.Some?
                     && (visualAnchor.value <= visualIdx <= selectedIndex
                         || selectedIndex <= visualIdx <= visualAnchor.value)
    {
      if mode != Visual then false
      else match VisualSelectionRange()
        case None => false
        case Some((start, end)) => start <= visualIdx <= end
    }

    /** `enter_visual_mode`: the range starts as the selected entry alone. */
    method EnterVisualMode()
      modifies this`visualAnchor, this`mode
      ensures mode == Visual && visualAnchor == Some(selectedIndex)
      ensures forall v: nat :: IsInVisualSelection(v) <==> v == selectedIndex
    {
      visualAnchor := Some(selectedIndex);
      mode := Visual;
    }

    /** `exit_visual_mode`: nothing is in the range any more. */
    method ExitVisualMode()
      modifies this`visualAnchor, this`mode
      ensures mode == Normal && visualAnchor.None?
      ensures forall v: nat :: !IsInVisualSelection(v)
    {
      visualAnchor := None;
      mode := Normal;
    }

    /** `has_unsaved_changes`: both the edited and the original definition exist and
        some field differs. */
    function HasUnsavedChanges(): (b: bool)
      reads this
      ensures b <==> editConfig.Some? && editOriginalConfig.Some? && editConfig.value != editOriginalConfig.value
    {
      match (editConfig, editOriginalConfig)
      case (Some(current), Some(original)) =>
        || current.name != original.name
        || current.context != original.context
        || current.namespace != original.namespace
        || current.service != original.service
        || current.ports != original.ports
        || current.localInterface != original.localInterface
        || current.forwardType != original.forwardType
      case _ => false
    }

    // -------------------------------------------------------------------------
    // The edit form

    /** `get_edit_field_value`: the text of a field of the edited definition, empty
        without one or for a position past the last field. */
    function GetEditFieldValue(fieldIndex: nat): (v: string)
      reads this
      ensures fieldIndex >= EF.Count() || editConfig.None? ==> v == []
      ensures fieldIndex < EF.Count() && editConfig.Some? ==> v == EF.GetValue(EF.All[fieldIndex], editConfig.value)
    {
      FieldText(editConfig, fieldIndex)
    }

    /** Whether names are still proposed: a new definition whose name was not typed. */
    predicate ProposesNames()
      reads this`nameManuallyEdited, this`mode
    {
      !nameManuallyEdited && mode == Create
    }

    /** `update_auto_generated_name`: while names are proposed, the edited definition is
        renamed after its service and port, and the name field shows it if it is the
        current field. */
    method UpdateAutoGeneratedName()
      modifies this`editConfig, this`editFieldValue
      ensures !ProposesNames() || old(editConfig).None? ==>
                editConfig == old(editConfig) && editFieldValue == old(editFieldValue)
      ensures ProposesNames() && old(editConfig).Some? ==>
                var derived := DeriveConfigName(old(editConfig).value);
                && editConfig == Some(old(editConfig).value.(name := derived))
                && editFieldValue == (if editFieldIndex == 0 then derived else old(editFieldValue))
    {
      if nameManuallyEdited || mode != Create {
        return;
      }
      if editConfig.Some? {
        var derived := DeriveConfigName(editConfig.value);
        editConfig := Some(editConfig.value.(name := derived));
        if editFieldIndex == 0 {
          editFieldValue := derived;
        }
      }
    }

    /** `set_edit_field_value`: stores text into the current field; a change of service,
        ports or backend renames a new definition after them. The field's own text is
        never touched, since those fields are not the name field. */
    method SetEditFieldValue(value: string)
      modifies this`editConfig, this`editFieldValue
      ensures editFieldValue == old(editFieldValue)
      ensures editConfig == Stored(old(editConfig), editFieldIndex, value, ProposesNames())
      ensures editFieldIndex < EF.Count() && old(editConfig).Some? && ProposesNames()
              && EF.TriggersNameGeneration(EF.All[editFieldIndex]) ==>
                editConfig.value.name == DeriveConfigName(editConfig.value)
    {
      var field := EF.FromIndex(editFieldIndex);
      if field.None? {
        return;
      }
      if editConfig.Some? {
        editConfig := Some(EF.SetValue(field.value, editConfig.value, value));
      }
      if EF.TriggersNameGeneration(field.value) {
        assert EF.All[0] == EF.Name && editFieldIndex != 0;
        UpdateAutoGeneratedName();
        if editConfig.Some? && ProposesNames() {
          DeriveIgnoresName(editConfig.value, DeriveConfigName(editConfig.value));
        }
      }
    }

    /** `next_edit_field`: stores the typed text, moves to the next field (wrapping to
        the first), shows its text with the cursor at its end, and refreshes the
        suggestions for it. */
    method NextEditField()
      modifies this`editConfig, this`editFieldValue, this`editFieldIndex, this`editCursorPos, this`autocomplete
      ensures editFieldIndex == NextSlot(old(editFieldIndex), EF.Count())
      ensures var left := Stored(old(editConfig), old(editFieldIndex), old(editFieldValue), ProposesNames());
              editFieldValue == FieldText(left, editFieldIndex) && editCursorPos == |editFieldValue|
      ensures var left := Stored(old(editConfig), old(editFieldIndex), old(editFieldValue), ProposesNames());
              var i := editFieldIndex;
              editConfig == (if EF.SupportsAutocomplete(EF.All[i]) then Stored(left, i, editFieldValue, ProposesNames()) else left)
      ensures var left := Stored(old(editConfig), old(editFieldIndex), old(editFieldValue), ProposesNames());
              autocomplete == Refreshed(old(autocomplete), editFieldIndex, left.Some?, editFieldValue)
      ensures ProposesNames() && editConfig.Some? && EF.TriggersNameGeneration(EF.All[editFieldIndex]) ==>
                editConfig.value.name == DeriveConfigName(editConfig.value)
    {
      SetEditFieldValue(editFieldValue);
      MoveToField(NextSlot(editFieldIndex, EF.Count()));
    }

    /** `prev_edit_field`: stores the typed text, moves to the previous field (wrapping
        from the first to the last), shows its text with the cursor at its end, and
        refreshes the suggestions for it. */
    method PrevEditField()
      modifies this`editConfig, this`editFieldValue, this`editFieldIndex, this`editCursorPos, this`autocomplete
      ensures editFieldIndex == PrevSlot(old(editFieldIndex), EF.Count())
      ensures var left := Stored(old(editConfig), old(editFieldIndex), old(editFieldValue), ProposesNames());
              editFieldValue == FieldText(left, editFieldIndex) && editCursorPos == |editFieldValue|
      ensures var left := Stored(old(editConfig), old(editFieldIndex), old(editFieldValue), ProposesNames());
              var i := editFieldIndex;
              editConfig == (if i < EF.Count() && EF.SupportsAutocomplete(EF.All[i]) then Stored(left, i, editFieldValue, ProposesNames()) else left)
      ensures var left := Stored(old(editConfig), old(editFieldIndex), old(editFieldValue), ProposesNames());
              autocomplete == Refreshed(old(autocomplete), editFieldIndex, left.Some?, editFieldValue)
      ensures ProposesNames() && editConfig.Some? && editFieldIndex < EF.Count() && EF.TriggersNameGeneration(EF.All[editFieldIndex]) ==>
                editConfig.value.name == DeriveConfigName(editConfig.value)
    {
      SetEditFieldValue(editFieldValue);
      MoveToField(PrevSlot(editFieldIndex, EF.Count()));
    }

    /** The common part of `next_edit_field` and `prev_edit_field` once the typed text is
        stored: field `i` becomes current and shows its text, and its suggestions are
        refreshed. */
    method MoveToField(i: nat)
      modifies this`editConfig, this`editFieldValue, this`editFieldIndex, this`editCursorPos, this`autocomplete
      ensures editFieldIndex == i
      ensures editFieldValue == FieldText(old(editConfig), i) && editCursorPos == |editFieldValue|
      ensures editConfig == (if i < EF.Count() && EF.SupportsAutocomplete(EF.All[i])
                             then Stored(old(editConfig), i, editFieldValue, ProposesNames()) else old(editConfig))
      ensures autocomplete == Refreshed(old(autocomplete), i, old(editConfig).Some?, editFieldValue)
    {
      ghost var before := autocomplete;
      editFieldIndex := i;
      ShowField();
      ghost var shown := editFieldValue;
      assert Refreshed(autocomplete, i, editConfig.Some?, shown) == Refreshed(before, i, editConfig.Some?, shown);
      EnterField();
    }

    /** The middle of `next_edit_field` and `prev_edit_field`: the field just moved to
        shows its text with the cursor at its end, and the suggestions lose focus. */
    method ShowField()
      modifies this`editFieldValue, this`editCursorPos, this`autocomplete
      ensures editFieldValue == FieldText(editConfig, editFieldIndex) && editCursorPos == |editFieldValue|
      ensures autocomplete == old(autocomplete).(focused := false, typing := false)
    {
      editFieldValue := GetEditFieldValue(editFieldIndex);
      editCursorPos := |editFieldValue|;
      autocomplete := autocomplete.(focused := false, typing := false);
    }

    /** The shared end of `next_edit_field` and `prev_edit_field`: a field with
        suggestions loads them (the backend field also selects the backend it shows);
        any other field clears them. */
    method EnterField()
      modifies this`editConfig, this`editFieldValue, this`autocomplete
      ensures editFieldValue == old(editFieldValue)
      ensures editConfig == (if editFieldIndex < EF.Count() && EF.SupportsAutocomplete(EF.All[editFieldIndex])
                             then Stored(old(editConfig), editFieldIndex, editFieldValue, ProposesNames())
                             else old(editConfig))
      ensures old(autocomplete).focused == old(autocomplete).typing == false ==>
                autocomplete == Refreshed(old(autocomplete), editFieldIndex, old(editConfig).Some?, editFieldValue)
    {
      match EF.FromIndex(editFieldIndex)
      case None =>
      case Some(field) =>
        if EF.SupportsAutocomplete(field) {
          LoadAutocomplete();
          if field == EF.ForwardType {
            SyncAutocompleteSelection();
          }
        } else {
          ClearAutocomplete();
        }
    }

    /** `load_autocomplete` up to the point where it hands the kubectl query to another
        thread: the selection returns to the first suggestion, the current field's text
        is stored, and while a definition is edited a field whose suggestions come from
        kubectl empties them and is marked loading. */
    method LoadAutocomplete()
      modifies this`editConfig, this`editFieldValue, this`autocomplete
      ensures editFieldValue == old(editFieldValue)
      ensures editConfig == Stored(old(editConfig), editFieldIndex, editFieldValue, ProposesNames())
      ensures autocomplete == Loading(old(autocomplete), editFieldIndex, editConfig.Some?)
    {
      autocomplete := autocomplete.(selectedIndex := 0);
      SetEditFieldValue(editFieldValue);
      if editConfig.None? {
        return;
      }
      match editFieldIndex
      case 1 => autocomplete := autocomplete.(contexts := [], loading := true);
      case 2 => autocomplete := autocomplete.(namespaces := [], loading := true);
      case 3 => autocomplete := autocomplete.(services := [], loading := true);
      case 4 => autocomplete := autocomplete.(ports := [], loading := true);
      case _ =>
    }

    /** `clear_autocomplete`. */
    method ClearAutocomplete()
      modifies this`autocomplete
      ensures autocomplete == DefaultAutocomplete()
    {
      autocomplete := DefaultAutocomplete();
    }

    /** `sync_autocomplete_selection`: the selection moves to the suggestion equal to the
        field's text, or to the first suggestion when none is. */
    method SyncAutocompleteSelection()
      modifies this`autocomplete
      ensures autocomplete == old(autocomplete).(selectedIndex := SelectionOf(old(Suggestions()), editFieldValue))
      ensures editFieldValue in Suggestions() ==> Suggestions()[autocomplete.selectedIndex] == editFieldValue
    {
      autocomplete := autocomplete.(selectedIndex := SelectionOf(Suggestions(), editFieldValue));
    }

    /** `get_autocomplete_suggestions`: the suggestions of the current field. */
    function Suggestions(): (s: seq<string>)
      reads this
      ensures editFieldIndex == 6 ==> s == autocomplete.types
      ensures editFieldIndex in {0, 5} || editFieldIndex >= 7 ==> s == []
    {
      SuggestionsFor(autocomplete, editFieldIndex)
    }

    /** `autocomplete_next`: the next suggestion, wrapping to the first. */
    method AutocompleteNext()
      modifies this`autocomplete
      ensures Suggestions() == [] ==> autocomplete == old(autocomplete)
      ensures Suggestions() != [] ==>
                autocomplete == old(autocomplete).(selectedIndex := NextSlot(old(autocomplete).selectedIndex, |Suggestions()|))
    {
      var suggestions := Suggestions();
      if suggestions != [] {
        autocomplete := autocomplete.(selectedIndex := NextSlot(autocomplete.selectedIndex, |suggestions|));
      }
    }

    /** `autocomplete_prev`: the previous suggestion, wrapping to the last. */
    method AutocompletePrev()
      modifies this`autocomplete
      ensures Suggestions() == [] ==> autocomplete == old(autocomplete)
      ensures Suggestions() != [] ==>
                autocomplete == old(autocomplete).(selectedIndex := PrevSlot(old(autocomplete).selectedIndex, |Suggestions()|))
    {
      var suggestions := Suggestions();
      if suggestions != [] {
        autocomplete := autocomplete.(selectedIndex := PrevSlot(autocomplete.selectedIndex, |suggestions|));
      }
    }
  }

  // ---------------------------------------------------------------------------
  // The three passes of `update_visual_order`

  /** The listing order computed in three passes: find, group, flatten. */
  method ListingOrder(configs: seq<PortForwardConfig>, search: string) returns (order: seq<nat>)
    ensures order == VisualOrder(configs, search)
  {
    var filtered: seq<nat>;
    if search == [] {
      filtered := seq(|configs|, (i: nat) requires i < |configs| => i);
      EmptySearchFindsAll(configs, |configs|);
      assert filtered == Positions(|configs|);
      assert ToLower(search) == [];
    } else {
      filtered := FindMatches(configs, ToLower(search));
    }
    assert filtered == Found(configs, search);
    var groups := GroupByContext(configs, filtered);
    order := Flatten(filtered, ContextOf(configs), groups);
  }

  /** The positions of the definitions an already lowercased search text finds. */
  method FindMatches(configs: seq<PortForwardConfig>, query: string) returns (filtered: seq<nat>)
    ensures filtered == FoundBelow(configs, query, |configs|)
  {
    filtered := [];
    var i := 0;
    while i < |configs|
      invariant i <= |configs|
      invariant filtered == FoundBelow(configs, query, i)
    {
      if Matches(configs[i], query) {
        filtered := filtered + [i];
      }
      i := i + 1;
    }
  }

  /** The found positions by context, each group in the order found. */
  method GroupByContext(configs: seq<PortForwardConfig>, filtered: seq<nat>) returns (groups: map<string, seq<nat>>)
    ensures groups.Keys == ContextsOf(configs, filtered)
    ensures forall k :: k in groups ==> groups[k] == Select(filtered, ContextOf(configs), k)
  {
    var key := ContextOf(configs);
    groups := map[];
    var j := 0;
    while j < |filtered|
      invariant j <= |filtered|
      invariant groups.Keys == ContextsOf(configs, filtered[..j])
      invariant forall k :: k in groups ==> groups[k] == Select(filtered[..j], key, k)
    {
      var idx := filtered[j];
      var context := key(idx);
      GroupStep(filtered, key, j, groups, configs);
      groups := groups[context := (if context in groups then groups[context] else []) + [idx]];
      j := j + 1;
    }
    assert filtered[..j] == filtered;
  }

  /** The groups one after the other, contexts in ascending order. */
  method Flatten(filtered: seq<nat>, key: nat -> string, groups: map<string, seq<nat>>)
    returns (order: seq<nat>)
    requires forall k :: k in groups ==> groups[k] == Select(filtered, key, k)
    ensures order == Gather(filtered, key, Sorted(groups.Keys))
  {
    var contexts := Sorted(groups.Keys);
    assert forall i :: 0 <= i < |contexts| ==> contexts[i] in groups;
    order := [];
    var k := 0;
    while k < |contexts|
      invariant k <= |contexts|
      invariant order == Gather(filtered, key, contexts[..k])
    {
      GatherPrefixStep(filtered, key, contexts, k);
      order := order + groups[contexts[k]];
      k := k + 1;
    }
    assert contexts[..k] == contexts;
  }

  /** One step of grouping: the next position joins its context's group. */
  lemma GroupStep(filtered: seq<nat>, key: nat -> string, j: nat, groups: map<string, seq<nat>>,
                  configs: seq<PortForwardConfig>)
    requires j < |filtered| && key == ContextOf(configs)
    requires groups.Keys == ContextsOf(configs, filtered[..j])
    requires forall k :: k in groups ==> groups[k] == Select(filtered[..j], key, k)
    ensures var idx := filtered[j];
            var groups' := groups[key(idx) := (if key(idx) in groups then groups[key(idx)] else []) + [idx]];
            && groups'.Keys == ContextsOf(configs, filtered[..j + 1])
            && forall k :: k in groups' ==> groups'[k] == Select(filtered[..j + 1], key, k)
  {
    var idx := filtered[j];
    var longer := filtered[..j + 1];
    assert longer[..j] == filtered[..j];
    assert longer[j] == idx;
    assert forall x :: x in longer <==> x in filtered[..j] || x == idx;
    if key(idx) !in groups {
      forall x | x in filtered[..j]
        ensures key(x) != key(idx)
      {
        assert key(x) in ContextsOf(configs, filtered[..j]);
      }
      SelectNone(filtered[..j], key, key(idx));
    }
  }
}
