/** src/components/ui/Dropdown.tsx: a select box over labelled options. The
    shown text, the highlighted option, and what a click on an option does. */
module Dropdown {
  import opened Js

  datatype DropdownOption = DropdownOption(value: string, text: string)

  const DefaultPlaceholder := "Select an option"

  /** `options.find(option => option.value === value)`; an undefined value
      matches no option. */
  function SelectedOption(options: seq<DropdownOption>, value: Option<string>): (r: Option<DropdownOption>)
    ensures r.None? <==> value.None? || forall i :: 0 <= i < |options| ==> options[i].value != value.value
    ensures r.Some? ==> value == Some(r.value.value)
    ensures r.Some? ==> exists i :: (0 <= i < |options| && options[i] == r.value &&
      forall j :: 0 <= j < i ==> options[j].value != value.value)
  {
    if value.None? || options == [] then None
    else if options[0].value == value.value then Some(options[0])
    else
      var r := SelectedOption(options[1..], value);
      assert forall i :: 1 <= i < |options| ==> options[i] == options[1..][i - 1];
      if r.Some? then
        var k :| 0 <= k < |options| - 1 && options[1..][k] == r.value &&
          forall j :: 0 <= j < k ==> options[1..][j].value != value.value;
        assert options[k + 1] == r.value;
        r
      else r
  }

  /** `placeholder = 'Select an option'`: the default replaces only an
      undefined placeholder, so an empty one is kept. */
  function PlaceholderOr(placeholder: Option<string>): (t: string)
    ensures placeholder.None? ==> t == DefaultPlaceholder
    ensures placeholder.Some? ==> t == placeholder.value
  {
    if placeholder.Some? then placeholder.value else DefaultPlaceholder
  }

  /** The button's text: the selected option's label, or the placeholder. */
  function DisplayText(options: seq<DropdownOption>, value: Option<string>, placeholder: Option<string>): (t: string)
    ensures SelectedOption(options, value).Some? ==> t == SelectedOption(options, value).value.text
    ensures SelectedOption(options, value).None? ==> t == PlaceholderOr(placeholder)
  {
    var selected := SelectedOption(options, value);
    if selected.Some? then selected.value.text else PlaceholderOr(placeholder)
  }

  /** `option.value === value`: the option is drawn highlighted. */
  predicate Highlighted(option: DropdownOption, value: Option<string>)
    ensures Highlighted(option, value) ==> value.Some? && option.value == value.value
    ensures value.Some? && option.value == value.value ==> Highlighted(option, value)
  {
    value.Some? && option.value == value.value
  }

  /** Some option is highlighted exactly when there is a selection, and the
      selected option is one of the highlighted ones. */
  lemma HighlightedIffSelected(options: seq<DropdownOption>, value: Option<string>)
    ensures (exists i :: 0 <= i < |options| && Highlighted(options[i], value)) <==> SelectedOption(options, value).Some?
    ensures SelectedOption(options, value).Some? ==> Highlighted(SelectedOption(options, value).value, value)
  {
  }

  class DropdownState {
    var isOpen: bool

    constructor ()
      ensures !isOpen
    {
      isOpen := false;
    }

    /** The button: `setIsOpen(!isOpen)`. */
    method ToggleOpen()
      modifies this
      ensures isOpen == !old(isOpen)
    {
      isOpen := !isOpen;
    }

    /** A click on an option: `onChange?.(option.value)` (reported as the
        value passed, when there is a handler), then the list closes. */
    method Choose(option: DropdownOption, hasOnChange: bool) returns (changed: Option<string>)
      modifies this
      ensures !isOpen
      ensures hasOnChange ==> changed == Some(option.value)
      ensures !hasOnChange ==> changed.None?
    {
      changed := if hasOnChange then Some(option.value) else None;
      isOpen := false;
    }
  }
}
