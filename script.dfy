/**
 * resources/script.js: the settings webview. `UpdateDropdown` rebuilds a
 * `<select>` from the shared `properties` object: a placeholder first, then
 * the names whose kind matches, in entry order, and selects an option by a
 * fixed rule. The message handler refills the dropdowns on
 * `updatePropertySettings` and `updateProjects`.
 *
 * A `<select>` element is modelled by its options and its selection. The DOM
 * is a fixed map from element IDs to those elements. Logging is left out.
 */
module Script {
  import opened Wrappers
  import opened Protocol

  /** One `<option>`: its value, its text, and whether it is disabled. */
  datatype OptionElement = OptionElement(value: string, text: string, disabled: bool)

  /**
   * Which option is selected. `BrowserDefault` stands for "the script made no
   * choice", leaving it to the browser's own rule.
   */
  datatype Selection = Chosen(index: nat) | BrowserDefault

  /** A `<select>` element. */
  class SelectElement {
    var options: seq<OptionElement>
    var selection: Selection

    constructor ()
      ensures options == [] && selection == BrowserDefault
    {
      options := [];
      selection := BrowserDefault;
    }
  }

  /**
   * The names of the entries whose kind is `propertyType`, in entry order;
   * every name when `propertyType` is null.
   */
  function Matching(entries: Properties, propertyType: Option<string>): (names: seq<string>)
    ensures |names| <= |entries|
  {
    if entries == [] then []
    else
      var rest := Matching(entries[1..], propertyType);
      if propertyType.None? || entries[0].1 == propertyType.value then [entries[0].0] + rest else rest
  }

  /** Membership: a name is listed exactly when an entry pairs it with the requested kind. */
  lemma {:induction false} MatchingMembers(entries: Properties, kind: string, name: string)
    ensures name in Matching(entries, Some(kind)) <==> (name, kind) in entries
  {
    if entries != [] {
      MatchingMembers(entries[1..], kind, name);
      assert entries == [entries[0]] + entries[1..];
    }
  }

  /** Order: filtering commutes with concatenation, so matches keep their entry order. */
  lemma {:induction false} MatchingKeepsOrder(a: Properties, b: Properties, propertyType: Option<string>)
    ensures Matching(a + b, propertyType) == Matching(a, propertyType) + Matching(b, propertyType)
  {
    if a == [] {
      assert a + b == b;
    } else {
      assert (a + b)[0] == a[0];
      assert (a + b)[1..] == a[1..] + b;
      MatchingKeepsOrder(a[1..], b, propertyType);
    }
  }

  /** The names of all entries, in entry order. */
  function Names(entries: Properties): seq<string>
  {
    if entries == [] then [] else [entries[0].0] + Names(entries[1..])
  }

  /** With a null `propertyType`, every entry is listed. */
  lemma {:induction false} NullTypeListsAll(entries: Properties)
    ensures Matching(entries, None) == Names(entries)
  {
    if entries != [] {
      NullTypeListsAll(entries[1..]);
    }
  }

  /** The placeholder option: value `''`, disabled unless choosing none is allowed. */
  function Placeholder(text: string, noneIsSelectable: bool): (o: OptionElement)
    ensures o.value == "" && o.text == text
    ensures o.disabled <==> !noneIsSelectable
  {
    OptionElement("", text, !noneIsSelectable)
  }

  /** One option per name, showing the name. */
  function NameOptions(names: seq<string>): (opts: seq<OptionElement>)
    ensures |opts| == |names|
  {
    if names == [] then [] else [OptionElement(names[0], names[0], false)] + NameOptions(names[1..])
  }

  /** The option at position `i` shows the `i`-th name. */
  lemma {:induction false} NameOptionsAt(names: seq<string>, i: nat)
    requires i < |names|
    ensures NameOptions(names)[i] == OptionElement(names[i], names[i], false)
  {
    if i > 0 {
      NameOptionsAt(names[1..], i - 1);
    }
  }

  /** `selectedValue` is truthy and names a listed option. */
  predicate Explicit(names: seq<string>, selectedValue: Option<string>)
  {
    selectedValue.Some? && selectedValue.value != "" && selectedValue.value in names
  }

  /** The position of the last occurrence of `v`. */
  function LastIndexOf(names: seq<string>, v: string): (i: nat)
    requires v in names
    ensures i < |names| && names[i] == v
    ensures forall j :: i < j < |names| ==> names[j] != v
  {
    if names[|names| - 1] == v then |names| - 1 else LastIndexOf(names[..|names| - 1], v)
  }

  /** Appending a name moves the last occurrence only when the name is `v`. */
  lemma LastIndexOfAppend(names: seq<string>, x: string, v: string)
    requires v in names + [x]
    ensures x == v ==> LastIndexOf(names + [x], v) == |names|
    ensures x != v ==> v in names && LastIndexOf(names + [x], v) == LastIndexOf(names, v)
  {
    if x != v {
      assert (names + [x])[..|names|] == names;
    }
  }

  /** Appending a name appends its option. */
  lemma {:induction false} NameOptionsAppend(names: seq<string>, x: string)
    ensures NameOptions(names + [x]) == NameOptions(names) + [OptionElement(x, x, false)]
  {
    if names != [] {
      assert (names + [x])[1..] == names[1..] + [x];
      NameOptionsAppend(names[1..], x);
    }
  }

  /**
   * The index of the selected option once the options are `[placeholder] +
   * names`: the option naming `selectedValue` (the last one, should a name
   * repeat), else the sole match, else the placeholder.
   */
  function ChosenIndex(names: seq<string>, selectedValue: Option<string>): (i: nat)
    ensures i <= |names|
  {
    if Explicit(names, selectedValue) then 1 + LastIndexOf(names, selectedValue.value)
    else if |names| == 1 then 1
    else 0
  }

  /** The selection rule, stated on the options it picks from. */
  lemma SelectionRule(placeholder: string, noneIsSelectable: bool, names: seq<string>, selectedValue: Option<string>)
    ensures var opts := [Placeholder(placeholder, noneIsSelectable)] + NameOptions(names);
            var i := ChosenIndex(names, selectedValue);
            && i < |opts|
            && (Explicit(names, selectedValue) ==> i > 0 && opts[i].value == selectedValue.value)
            && (!Explicit(names, selectedValue) && |names| == 1 ==> i == 1 && opts[i].value == names[0])
            && (!Explicit(names, selectedValue) && |names| != 1 ==> i == 0 && opts[i].value == "")
  {
    var i := ChosenIndex(names, selectedValue);
    if i > 0 {
      NameOptionsAt(names, i - 1);
    }
  }

  /**
   * `select` shows the dropdown built from `entries`: the placeholder, then
   * the matching names, with the option `ChosenIndex` picks selected.
   */
  ghost predicate Shows(select: SelectElement, entries: Properties, propertyType: Option<string>,
                        placeholder: string, selectedValue: Option<string>, noneIsSelectable: bool)
    reads select
  {
    var names := Matching(entries, propertyType);
    && select.options == [Placeholder(placeholder, noneIsSelectable)] + NameOptions(names)
    && select.selection == Chosen(ChosenIndex(names, selectedValue))
  }

  /**
   * The second half of `UpdateDropdown`: append one option per matching
   * name, marking the one equal to a truthy `selectedValue`, then apply the
   * default choice when no option was marked.
   */
  method AppendMatches(select: SelectElement, matchingProperties: seq<string>, selectedValue: Option<string>)
    modifies select
    ensures select.options == old(select.options) + NameOptions(matchingProperties)
    ensures select.selection == Chosen(ChosenIndex(matchingProperties, selectedValue))
  {
    var selectedOptionExists := false;
    var i := 0;
    while i < |matchingProperties|
      invariant 0 <= i <= |matchingProperties|
      invariant select.options == old(select.options) + NameOptions(matchingProperties[..i])
      invariant selectedOptionExists <==> Explicit(matchingProperties[..i], selectedValue)
      invariant selectedOptionExists ==>
        select.selection == Chosen(1 + LastIndexOf(matchingProperties[..i], selectedValue.value))
    {
      var name := matchingProperties[i];
      ghost var done := matchingProperties[..i];
      assert matchingProperties[..i + 1] == done + [name];
      NameOptionsAppend(done, name);
      if Explicit(done + [name], selectedValue) {
        LastIndexOfAppend(done, name, selectedValue.value);
      }
      if selectedValue.Some? && selectedValue.value != "" && name == selectedValue.value {
        select.selection := Chosen(i + 1);
        selectedOptionExists := true;
      }
      select.options := select.options + [OptionElement(name, name, false)];
      i := i + 1;
    }
    assert matchingProperties[..i] == matchingProperties;
    if !selectedOptionExists {
      if |matchingProperties| == 0 {
        select.selection := Chosen(0);
      } else if |matchingProperties| == 1 {
        select.selection := Chosen(1);
      } else {
        select.selection := Chosen(0);
      }
    }
  }

  /** The ids of the dropdowns a message refills: none for any other command. */
  function TargetIds(message: ToWebview): set<string>
  {
    match message
    case UpdatePropertySettings(_, _, _) => {"projectProperty", "timeProperty"}
    case UpdateProjects(_, _) => {"project"}
    case OtherToWebview(_) => {}
  }

  /** The webview script's state: the shared `properties` object and the page's elements. */
  class Webview {
    var properties: Option<Properties>
    const elements: map<string, SelectElement>

    constructor (elements: map<string, SelectElement>)
      ensures properties == None && this.elements == elements
    {
      properties := None;
      this.elements := elements;
    }

    /** `UpdateDropdown(elementId, propertyType, placeholder, selectedValue, noneIsSelectable)`. */
    method UpdateDropdown(elementId: string, propertyType: Option<string>, placeholder: string,
                          selectedValue: Option<string>, noneIsSelectable: bool)
      modifies if elementId in elements then {elements[elementId]} else {}
      ensures elementId in elements ==>
        var select := elements[elementId];
        match properties
        case None =>
          select.options == [Placeholder(placeholder, noneIsSelectable)] && select.selection == BrowserDefault
        case Some(entries) =>
          Shows(select, entries, propertyType, placeholder, selectedValue, noneIsSelectable)
    {
      if elementId !in elements {
        return;
      }
      var select := elements[elementId];
      var emptyOption := Placeholder(placeholder, noneIsSelectable);
      select.options := [emptyOption];
      select.selection := BrowserDefault;
      if properties.Some? {
        var matchingProperties := Matching(properties.value, propertyType);
        AppendMatches(select, matchingProperties, selectedValue);
      }
    }

    /** The dropdowns a message refills, among those present on the page. */
    function Targeted(message: ToWebview): set<SelectElement>
    {
      set id | id in TargetIds(message) && id in elements :: elements[id]
    }

    /** The `window` message handler for the two messages that refill dropdowns. */
    method OnMessage(message: ToWebview)
      modifies this, elements.Values
      ensures message.OtherToWebview? ==> properties == old(properties)
      ensures message.UpdatePropertySettings? ==> properties == Some(message.properties)
      ensures message.UpdateProjects? ==> properties == Some(message.projects)
      ensures message.UpdatePropertySettings? && "projectProperty" in elements
              && ("timeProperty" in elements ==> elements["timeProperty"] != elements["projectProperty"]) ==>
        Shows(elements["projectProperty"], message.properties, Some("relation"),
              "Select a Project Property", message.selectedProjectProperty, false)
      ensures message.UpdatePropertySettings? && "timeProperty" in elements ==>
        Shows(elements["timeProperty"], message.properties, Some("date"),
              "Select a Time Property", message.selectedTimeProperty, false)
      ensures message.UpdateProjects? && "project" in elements ==>
        Shows(elements["project"], message.projects, None, "None", message.workspaceName, true)
      ensures forall e | e in elements.Values && e !in Targeted(message) :: unchanged(e)
    {
      match message
      case UpdatePropertySettings(props, selectedProjectProperty, selectedTimeProperty) =>
        properties := Some(props);
        UpdateDropdown("projectProperty", Some("relation"), "Select a Project Property", selectedProjectProperty, false);
        UpdateDropdown("timeProperty", Some("date"), "Select a Time Property", selectedTimeProperty, false);
      case UpdateProjects(projects, workspaceName) =>
        properties := Some(projects);
        UpdateDropdown("project", None, "None", workspaceName, true);
      case OtherToWebview(_) =>
    }
  }
}
