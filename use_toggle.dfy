/** The `useToggle` hook of a generated project
    (src/generators/templates/project/src/hooks/useToggle.ts): one boolean
    cell, the `ref` it returns, and the two functions that change it. The
    returned ref, `toggle` and `setValue` all act on the same object. */
module UseToggle {

  /** The state `ref` shared by the hook's three results. */
  class Toggle {
    var value: bool

    /** `useToggle(initialValue = false)`. */
    constructor (initialValue: bool := false)
      ensures value == initialValue
    {
      value := initialValue;
    }

    /** `toggle()`: `state.value = !state.value`. */
    method Flip()
      modifies this
      ensures value == !old(value)
    {
      value := !value;
    }

    /** `setValue(v)`: `state.value = v`, whatever it was. */
    method SetValue(v: bool)
      modifies this
      ensures value == v
    {
      value := v;
    }
  }

  // ---------------------------------------------------------------------
  // Properties, as callers of the hook see them

  /** Without an argument the state starts out false. */
  method DefaultStartsFalse() returns (t: Toggle)
    ensures fresh(t) && !t.value
  {
    t := new Toggle();
  }

  /** Toggling twice restores the state. */
  method ToggleTwice(t: Toggle)
    modifies t
    ensures t.value == old(t.value)
  {
    t.Flip();
    t.Flip();
  }

  /** Toggling after setting a value gives its negation, whatever the
      state was before. */
  method SetThenToggle(t: Toggle, v: bool)
    modifies t
    ensures t.value == !v
  {
    t.SetValue(v);
    t.Flip();
  }

  /** Two hooks never share a cell: changing one leaves the other as it
      was. */
  method IndependentHooks(a: bool, b: bool) returns (x: Toggle, y: Toggle)
    ensures fresh(x) && fresh(y) && x != y
    ensures x.value == !a && y.value == b
  {
    x := new Toggle(a);
    y := new Toggle(b);
    x.Flip();
  }
}
