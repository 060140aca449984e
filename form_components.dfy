/** The shared form controls (src/components/sections/FormComponents.tsx):
    the checkbox group's toggle, which every multi-select answer of the
    wizard goes through. */
module FormComponents {
  import opened JsSemantics

  /** `(v) => v !== option`. */
  function Other(option: string): string -> bool {
    (v: string) => v != option
  }

  /** `toggleOption`: the list handed to `onChange` when the box of `option`
      is clicked. `values` is `None` when the prop is `undefined`. */
  function ToggleOption(values: Option<seq<string>>, option: string): seq<string> {
    if values.Some? && option in values.value then Filter(values.value, Other(option))
    else values.GetOr([]) + [option]
  }

  /** The clicked option's box changes state: it is in the new list iff it
      was not in the old one. */
  lemma ToggleFlips(values: Option<seq<string>>, option: string)
    ensures option in ToggleOption(values, option) <==> option !in values.GetOr([])
  {
  }

  /** An unchecked option is added once, at the end. */
  lemma ToggleAppendsAbsent(values: Option<seq<string>>, option: string)
    requires option !in values.GetOr([])
    ensures ToggleOption(values, option) == values.GetOr([]) + [option]
  {
  }

  /** A checked option is removed, every copy of it, and nothing is added. */
  lemma ToggleRemovesPresent(values: seq<string>, option: string)
    requires option in values
    ensures var r := ToggleOption(Some(values), option);
      option !in r && |r| < |values| && IsSubsequence(r, values)
  {
    var r := ToggleOption(Some(values), option);
    FilterIsSubsequence(values, Other(option));
    FilterPartition(values, Other(option), (v: string) => v == option);
    var i :| 0 <= i < |values| && values[i] == option;
    assert Filter(values, (v: string) => v == option) != [] by {
      CountFacts(values, (v: string) => v == option);
    }
  }

  /** Every other option keeps its state, and the other options keep their
      relative order. */
  lemma ToggleKeepsOthers(values: Option<seq<string>>, option: string)
    ensures var r := ToggleOption(values, option);
      && (forall o :: o != option ==> (o in r <==> o in values.GetOr([])))
      && Filter(r, Other(option)) == Filter(values.GetOr([]), Other(option))
  {
    var vs := values.GetOr([]);
    if values.Some? && option in vs {
      FilterKeepsAll(Filter(vs, Other(option)), Other(option));
    } else {
      FilterAppend(vs, [option], Other(option));
      assert Filter([option], Other(option)) == [];
    }
  }

  /** Two clicks on an unchecked option give the list back. */
  lemma ToggleTwiceAbsent(values: seq<string>, option: string)
    requires option !in values
    ensures ToggleOption(Some(ToggleOption(Some(values), option)), option) == values
  {
    FilterAppend(values, [option], Other(option));
    FilterKeepsAll(values, Other(option));
    assert Filter([option], Other(option)) == [];
  }

  /** Two clicks on a checked option move it to the end and drop its other
      copies: the list comes back only when it held the option once, last. */
  lemma ToggleTwicePresent(values: seq<string>, option: string)
    requires option in values
    ensures ToggleOption(Some(ToggleOption(Some(values), option)), option)
              == Filter(values, Other(option)) + [option]
  {
  }

  /** An `undefined` list is the empty list. */
  lemma ToggleUndefined(option: string)
    ensures ToggleOption(None, option) == ToggleOption(Some([]), option) == [option]
  {
  }
}
