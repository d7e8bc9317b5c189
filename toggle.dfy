/** The switch component: a local `checked` state that follows the
    controlling `checked` prop whenever the sync effect sees it change, and
    user clicks that are ignored while the switch is disabled. */
module ToggleSwitch {
  import opened Js

  /** `!!x` for an optional boolean prop (`None` is `undefined`). */
  function Bang(prop: Option<bool>): (b: bool)
    ensures b <==> prop == Some(true)
  {
    prop.Some? && prop.value
  }

  /** The local state, the ref holding the last prop seen, and the values
      passed on to the parent's `onChange`. */
  datatype ToggleState = ToggleState(checked: bool, theirCheckedRef: bool, forwarded: seq<bool>)

  /** The first render. */
  function Initial(theirChecked: Option<bool>): (s: ToggleState)
    ensures s.checked == Bang(theirChecked) && s.theirCheckedRef == Bang(theirChecked)
    ensures s.forwarded == []
  {
    ToggleState(Bang(theirChecked), Bang(theirChecked), [])
  }

  /** The ref and the prop differ under strict comparison: the ref holds a
      boolean, so an `undefined` prop always differs from it. */
  predicate PropDiffers(s: ToggleState, theirChecked: Option<bool>): (r: bool)
    ensures theirChecked.None? ==> r
    ensures theirChecked.Some? ==> (r <==> theirChecked.value != s.theirCheckedRef)
  {
    theirChecked != Some(s.theirCheckedRef)
  }

  /** One run of the effect on `[theirChecked]`. */
  function Sync(s: ToggleState, theirChecked: Option<bool>): (r: ToggleState)
    ensures r.theirCheckedRef == Bang(theirChecked)
    ensures r.forwarded == s.forwarded
  {
    var checked := if PropDiffers(s, theirChecked) then Bang(theirChecked) else s.checked;
    ToggleState(checked, Bang(theirChecked), s.forwarded)
  }

  /** The `onChange` handler for a click that would set the box to `value`;
      `hasOnChange` says whether the parent passed a handler. */
  function UserChange(s: ToggleState, value: bool, disabled: Option<bool>, hasOnChange: bool): (r: ToggleState)
    ensures r.theirCheckedRef == s.theirCheckedRef
  {
    if Bang(disabled) then s
    else s.(checked := value, forwarded := if hasOnChange then s.forwarded + [value] else s.forwarded)
  }

  /** When the prop changes to a boolean other than the one last seen, the
      local state takes it. */
  lemma PropChangeWins(s: ToggleState, b: bool)
    requires b != s.theirCheckedRef
    ensures Sync(s, Some(b)).checked == b
  {
  }

  /** The same boolean as last seen leaves the local state alone, even when
      a click has made it disagree. */
  lemma SamePropKeepsLocal(s: ToggleState, b: bool)
    requires b == s.theirCheckedRef
    ensures Sync(s, Some(b)) == s.(theirCheckedRef := b)
  {
  }

  /** An `undefined` prop never equals the ref, so every run of the effect
      resets the local state to false. */
  lemma UndefinedPropResets(s: ToggleState)
    ensures Sync(s, None).checked == false
    ensures Sync(s, None).theirCheckedRef == false
  {
  }

  /** Once the ref holds a boolean prop, running the effect again with it
      changes nothing. */
  lemma SyncIdempotent(s: ToggleState, b: bool)
    ensures Sync(Sync(s, Some(b)), Some(b)) == Sync(s, Some(b))
  {
  }

  /** A disabled switch ignores clicks and tells the parent nothing. */
  lemma DisabledIgnoresClicks(s: ToggleState, value: bool, hasOnChange: bool)
    ensures UserChange(s, value, Some(true), hasOnChange) == s
  {
  }

  /** An enabled switch takes the clicked value and forwards the event once,
      if the parent listens. */
  lemma EnabledClickForwards(s: ToggleState, value: bool, disabled: Option<bool>, hasOnChange: bool)
    requires !Bang(disabled)
    ensures UserChange(s, value, disabled, hasOnChange).checked == value
    ensures |UserChange(s, value, disabled, hasOnChange).forwarded| == |s.forwarded| + (if hasOnChange then 1 else 0)
    ensures hasOnChange ==> UserChange(s, value, disabled, hasOnChange).forwarded[|s.forwarded|] == value
  {
  }

  /** A controlled switch: the parent feeds the clicked value back as the
      new prop, and the effect then keeps that value. */
  lemma ControlledRoundTrip(s: ToggleState, value: bool)
    ensures Sync(UserChange(s, value, None, true), Some(value)).checked == value
    ensures Sync(UserChange(s, value, None, true), Some(value)).theirCheckedRef == value
  {
  }

  /** The component's state and ref, with the forwarded values ghost. */
  class ToggleComponent {
    var checked: bool
    var theirCheckedRef: bool
    ghost var forwarded: seq<bool>

    ghost function State(): ToggleState
      reads this
    {
      ToggleState(checked, theirCheckedRef, forwarded)
    }

    constructor (theirChecked: Option<bool>)
      ensures State() == Initial(theirChecked)
    {
      checked := Bang(theirChecked);
      theirCheckedRef := Bang(theirChecked);
      forwarded := [];
    }

    method SyncEffect(theirChecked: Option<bool>)
      modifies this
      ensures State() == Sync(old(State()), theirChecked)
    {
      if theirChecked != Some(theirCheckedRef) {
        checked := Bang(theirChecked);
      }
      theirCheckedRef := Bang(theirChecked);
    }

    method OnChange(value: bool, disabled: Option<bool>, hasOnChange: bool)
      modifies this
      ensures State() == UserChange(old(State()), value, disabled, hasOnChange)
    {
      if Bang(disabled) {
        return;
      }
      checked := value;
      if hasOnChange {
        forwarded := forwarded + [value];
      }
    }
  }
}
