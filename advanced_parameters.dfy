/** The collapsible parameters panel (src/components/AdvancedParameters.tsx):
    four on/off toggles in a fixed order and a custom-instructions text
    box. Every change hands the parent a copy of the parameters with one
    field replaced. */
module AdvancedParameters {
  import opened Types
  import PromptBuilder

  /** `keyof GenerationParams` */
  datatype ParamKey = PreserveClothing | PreserveAccessories | PreserveExpression | CopyPose | CustomInstructions

  /** `boolean | string` */
  datatype ParamValue = Flag(on: bool) | Text(text: string)

  /** `params[key]` */
  function Get(p: GenerationParams, key: ParamKey): (v: ParamValue)
    ensures v.Text? <==> key == CustomInstructions
  {
    match key
    case PreserveClothing => Flag(p.preserveClothing)
    case PreserveAccessories => Flag(p.preserveAccessories)
    case PreserveExpression => Flag(p.preserveExpression)
    case CopyPose => Flag(p.copyPose)
    case CustomInstructions => Text(p.customInstructions)
  }

  /** The value has the field's type. */
  predicate Fits(key: ParamKey, value: ParamValue)
  {
    value.Text? <==> key == CustomInstructions
  }

  /** `{...params, [key]: value}`: the named field takes the value and every
      other field keeps its own. */
  function UpdateParam(p: GenerationParams, key: ParamKey, value: ParamValue): (r: GenerationParams)
    requires Fits(key, value)
    ensures Get(r, key) == value
    ensures forall other :: other != key ==> Get(r, other) == Get(p, other)
  {
    match key
    case PreserveClothing => p.(preserveClothing := value.on)
    case PreserveAccessories => p.(preserveAccessories := value.on)
    case PreserveExpression => p.(preserveExpression := value.on)
    case CopyPose => p.(copyPose := value.on)
    case CustomInstructions => p.(customInstructions := value.text)
  }

  /** The toggles, in display order; the custom instructions are not one. */
  const Toggles: seq<ParamKey> := [PreserveClothing, PreserveAccessories, PreserveExpression, CopyPose]

  /** A toggle's `onClick`: `updateParam(key, !params[key])`. */
  function Toggle(p: GenerationParams, key: ParamKey): (r: GenerationParams)
    requires key in Toggles
    ensures Get(r, key) == Flag(!Get(p, key).on)
    ensures forall other :: other != key ==> Get(r, other) == Get(p, other)
  {
    UpdateParam(p, key, Flag(!Get(p, key).on))
  }

  /** Two parameter records with the same value for every key are equal. */
  lemma {:induction false} SameFieldsSameParams(p: GenerationParams, q: GenerationParams)
    requires forall key :: Get(p, key) == Get(q, key)
    ensures p == q
  {
    assert Get(p, PreserveClothing) == Get(q, PreserveClothing);
    assert Get(p, PreserveAccessories) == Get(q, PreserveAccessories);
    assert Get(p, PreserveExpression) == Get(q, PreserveExpression);
    assert Get(p, CopyPose) == Get(q, CopyPose);
    assert Get(p, CustomInstructions) == Get(q, CustomInstructions);
  }

  /** Toggling the same switch twice gives back the original parameters. */
  lemma ToggleTwice(p: GenerationParams, key: ParamKey)
    requires key in Toggles
    ensures Toggle(Toggle(p, key), key) == p
  {
    var r := Toggle(Toggle(p, key), key);
    forall other ensures Get(r, other) == Get(p, other) {
      if other == key {
        assert Get(p, key).Flag?;
      }
    }
    SameFieldsSameParams(r, p);
  }

  /** Every toggle changes the prompt the generate endpoint builds. */
  lemma ToggleChangesPrompt(p: GenerationParams, key: ParamKey)
    requires key in Toggles
    ensures PromptBuilder.ComposePrompt(Toggle(p, key)) != PromptBuilder.ComposePrompt(p)
  {
    assert Toggle(p, key) != p by {
      assert Get(Toggle(p, key), key) != Get(p, key);
    }
    if PromptBuilder.ComposePrompt(Toggle(p, key)) == PromptBuilder.ComposePrompt(p) {
      PromptBuilder.PromptInjective(Toggle(p, key), p);
    }
  }

  class ParametersPanel {
    var isExpanded: bool
    /** The `params` prop, as the parent hands it back after each change. */
    var params: GenerationParams

    constructor(params: GenerationParams)
      ensures !isExpanded && this.params == params
    {
      isExpanded := false;
      this.params := params;
    }

    /** The header button: expands or collapses, never touching params. */
    method ToggleExpanded()
      modifies this
      ensures isExpanded == !old(isExpanded) && params == old(params)
    {
      isExpanded := !isExpanded;
    }

    method OnToggle(key: ParamKey)
      requires key in Toggles
      modifies this
      ensures params == Toggle(old(params), key) && isExpanded == old(isExpanded)
    {
      params := UpdateParam(params, key, Flag(!Get(params, key).on));
    }

    /** The text box's `onChange`: the text is stored as typed. */
    method OnCustomInstructions(text: string)
      modifies this
      ensures params == old(params).(customInstructions := text) && isExpanded == old(isExpanded)
    {
      params := UpdateParam(params, CustomInstructions, Text(text));
    }
  }
}
