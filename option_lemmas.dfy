/**
 * How a sequence of options builds the `searchOptions` record that `Find`
 * renders: each option owns one field, the last option for a field decides
 * it, and options for different fields may come in any order.
 */
module OptionLemmas {
  import opened VsWhere

  /** Records that agree outside `f` agree on each other field. */
  lemma AgreeOutside(a: SearchOptions, b: SearchOptions, f: Field, g: Field)
    requires AgreeExcept(a, b, f) && g != f
    ensures FieldValue(a, g) == FieldValue(b, g)
  {
  }

  /** Of two options for the same field, the later one alone counts. */
  lemma LaterOptionOverrides(first: Option, second: Option, so: SearchOptions)
    requires Target(first) == Target(second)
    ensures Apply(second, Apply(first, so)) == Apply(second, so)
  {
  }

  /** Options for different fields commute. */
  lemma DistinctOptionsCommute(o1: Option, o2: Option, so: SearchOptions)
    requires Target(o1) != Target(o2)
    ensures Apply(o2, Apply(o1, so)) == Apply(o1, Apply(o2, so))
  {
  }

  /** The last option that writes a field decides that field's value,
      whatever came before it. */
  lemma {:induction false} LastSetterWins(options: seq<Option>, i: nat)
    requires i < |options|
    requires forall j :: i < j < |options| ==> Target(options[j]) != Target(options[i])
    ensures FieldValue(ApplyAll(options), Target(options[i])) == Setting(options[i])
  {
    var n := |options|;
    if i < n - 1 {
      var init := options[..n - 1];
      assert init[i] == options[i];
      assert forall j :: i < j < |init| ==> init[j] == options[j];
      LastSetterWins(init, i);
      AgreeOutside(ApplyAll(options), ApplyAll(init), Target(options[n - 1]), Target(options[i]));
    }
  }

  /** A field that no option writes keeps its zero value. */
  lemma {:induction false} UnwrittenFieldKeepsZeroValue(options: seq<Option>, f: Field)
    requires forall j :: 0 <= j < |options| ==> Target(options[j]) != f
    ensures FieldValue(ApplyAll(options), f) == FieldValue(ZeroValue, f)
  {
    if options != [] {
      var init := options[..|options| - 1];
      assert forall j :: 0 <= j < |init| ==> init[j] == options[j];
      UnwrittenFieldKeepsZeroValue(init, f);
      AgreeOutside(ApplyAll(options), ApplyAll(init), Target(options[|options| - 1]), f);
    }
  }

  /** Applying one more option at the end. */
  lemma ApplyAllSnoc(options: seq<Option>, o: Option)
    ensures ApplyAll(options + [o]) == Apply(o, ApplyAll(options))
  {
    assert (options + [o])[..|options|] == options;
  }

  /** Swapping two neighbouring options for different fields does not
      change the record; adjacent swaps reach every reordering of options
      that keeps the relative order of options for the same field. */
  lemma {:induction false} SwapDistinctNeighbours(
    prefix: seq<Option>, o1: Option, o2: Option, suffix: seq<Option>)
    requires Target(o1) != Target(o2)
    ensures ApplyAll(prefix + [o1, o2] + suffix) == ApplyAll(prefix + [o2, o1] + suffix)
  {
    if suffix == [] {
      assert prefix + [o1, o2] + suffix == (prefix + [o1]) + [o2];
      assert prefix + [o2, o1] + suffix == (prefix + [o2]) + [o1];
      ApplyAllSnoc(prefix + [o1], o2);
      ApplyAllSnoc(prefix, o1);
      ApplyAllSnoc(prefix + [o2], o1);
      ApplyAllSnoc(prefix, o2);
      DistinctOptionsCommute(o1, o2, ApplyAll(prefix));
    } else {
      var init, last := suffix[..|suffix| - 1], suffix[|suffix| - 1];
      assert prefix + [o1, o2] + suffix == (prefix + [o1, o2] + init) + [last];
      assert prefix + [o2, o1] + suffix == (prefix + [o2, o1] + init) + [last];
      ApplyAllSnoc(prefix + [o1, o2] + init, last);
      ApplyAllSnoc(prefix + [o2, o1] + init, last);
      SwapDistinctNeighbours(prefix, o1, o2, init);
    }
  }
}
