/**
 * The multi-select drop-down: a list of selected options that a click toggles, a chip's
 * remove button that drops one value, and the label on the trigger.
 */
module MultiSelect {
  import opened Wrappers
  import opened Text

  /** An option of the drop-down: its label as `text`, and the `value` that identifies it. */
  datatype Choice = Choice(text: string, value: string)

  const DefaultPlaceholder := "Select options"

  /** `selected.map((s) => s.value)` */
  function Values(selected: seq<Choice>): (r: seq<string>)
    ensures |r| == |selected|
    ensures forall k :: 0 <= k < |selected| ==> r[k] == selected[k].value
  {
    seq(|selected|, k requires 0 <= k < |selected| => selected[k].value)
  }

  /** No value is selected twice. */
  predicate Distinct(selected: seq<Choice>) {
    forall i, j :: 0 <= i < j < |selected| ==> selected[i].value != selected[j].value
  }

  /** `selected.some((s) => s.value === value)` */
  predicate IsSelected(selected: seq<Choice>, value: string) {
    exists k :: 0 <= k < |selected| && selected[k].value == value
  }

  /** `selected.filter((s) => s.value !== value)` */
  function WithoutValue(selected: seq<Choice>, value: string): (r: seq<Choice>)
    ensures |r| <= |selected|
    ensures !IsSelected(r, value)
  {
    if |selected| == 0 then []
    else if selected[0].value == value then WithoutValue(selected[1..], value)
    else [selected[0]] + WithoutValue(selected[1..], value)
  }

  /** `handleSelect(option)`: the list passed to `onChange`. */
  function Toggle(selected: seq<Choice>, option: Choice): seq<Choice> {
    if IsSelected(selected, option.value) then WithoutValue(selected, option.value)
    else selected + [option]
  }

  /** A chip's remove button: `onChange` with the value dropped, or no call while disabled. */
  function RemoveClick(selected: seq<Choice>, option: Choice, disabled: bool): (r: Option<seq<Choice>>)
    ensures r.None? <==> disabled
  {
    if disabled then None else Some(WithoutValue(selected, option.value))
  }

  /** The trigger's text. */
  function Label(selected: seq<Choice>, placeholder: Option<string>): (r: string)
    ensures |selected| == 0 ==> r == placeholder.GetOr(DefaultPlaceholder)
    ensures |selected| > 0 ==> r == IntToString(|selected|) + " selected"
  {
    if |selected| > 0 then IntToString(|selected|) + " selected" else placeholder.GetOr(DefaultPlaceholder)
  }

  // ---------------------------------------------------------------------------------------
  // Properties
  // ---------------------------------------------------------------------------------------

  /** Filtering keeps exactly the entries with another value. */
  lemma {:induction false} WithoutValueMembers(selected: seq<Choice>, value: string, c: Choice)
    ensures c in WithoutValue(selected, value) <==> c in selected && c.value != value
  {
    if |selected| > 0 {
      WithoutValueMembers(selected[1..], value, c);
      assert selected == [selected[0]] + selected[1..];
    }
  }

  /** Filtering keeps the order: it distributes over concatenation. */
  lemma {:induction false} WithoutValueAppend(a: seq<Choice>, b: seq<Choice>, value: string)
    ensures WithoutValue(a + b, value) == WithoutValue(a, value) + WithoutValue(b, value)
  {
    if |a| == 0 {
      assert a + b == b;
    } else {
      assert (a + b)[1..] == a[1..] + b;
      WithoutValueAppend(a[1..], b, value);
    }
  }

  /** Filtering out a value nobody has changes nothing. */
  lemma {:induction false} WithoutAbsent(selected: seq<Choice>, value: string)
    requires !IsSelected(selected, value)
    ensures WithoutValue(selected, value) == selected
  {
    if |selected| > 0 {
      assert !IsSelected(selected[1..], value) by {
        forall k | 0 <= k < |selected[1..]|
          ensures selected[1..][k].value != value
        {
          assert selected[1..][k] == selected[k + 1];
        }
      }
      WithoutAbsent(selected[1..], value);
      assert selected == [selected[0]] + selected[1..];
    }
  }

  /** An absent option is appended at the end; a present one loses every entry with its value. */
  lemma ToggleEffect(selected: seq<Choice>, option: Choice, other: string)
    ensures !IsSelected(selected, option.value) ==> Toggle(selected, option) == selected + [option]
    ensures IsSelected(Toggle(selected, option), option.value) <==> !IsSelected(selected, option.value)
    ensures other != option.value ==>
      (IsSelected(Toggle(selected, option), other) <==> IsSelected(selected, other))
  {
    var t := Toggle(selected, option);
    if IsSelected(selected, option.value) {
      if IsSelected(selected, other) && other != option.value {
        var k :| 0 <= k < |selected| && selected[k].value == other;
        WithoutValueMembers(selected, option.value, selected[k]);
        var j :| 0 <= j < |t| && t[j] == selected[k];
      }
      if IsSelected(t, other) {
        var j :| 0 <= j < |t| && t[j].value == other;
        WithoutValueMembers(selected, option.value, t[j]);
        var k :| 0 <= k < |selected| && selected[k] == t[j];
      }
    } else {
      assert t[|selected|] == option;
      if IsSelected(t, other) && other != option.value {
        var j :| 0 <= j < |t| && t[j].value == other;
        assert j < |selected| && selected[j] == t[j];
      }
      if IsSelected(selected, other) {
        var k :| 0 <= k < |selected| && selected[k].value == other;
        assert t[k] == selected[k];
      }
    }
  }

  /** Toggling an absent option twice gives back the selection it started from. */
  lemma ToggleTwiceAbsent(selected: seq<Choice>, option: Choice)
    requires !IsSelected(selected, option.value)
    ensures Toggle(Toggle(selected, option), option) == selected
  {
    var t := selected + [option];
    assert t[|selected|] == option;
    assert IsSelected(t, option.value);
    WithoutValueAppend(selected, [option], option.value);
    WithoutAbsent(selected, option.value);
    assert WithoutValue([option], option.value) == [];
  }

  /** Toggling a present option twice leaves one entry with its value, now at the end. */
  lemma ToggleTwicePresent(selected: seq<Choice>, option: Choice)
    requires IsSelected(selected, option.value)
    ensures Toggle(Toggle(selected, option), option) == WithoutValue(selected, option.value) + [option]
  {
  }

  /** Filtering a selection without repeated values leaves one without repeated values. */
  lemma {:induction false} WithoutValueDistinct(selected: seq<Choice>, value: string)
    requires Distinct(selected)
    ensures Distinct(WithoutValue(selected, value))
  {
    if |selected| > 0 {
      var rest := WithoutValue(selected[1..], value);
      WithoutValueDistinct(selected[1..], value);
      if selected[0].value != value {
        forall j | 0 <= j < |rest|
          ensures rest[j].value != selected[0].value
        {
          WithoutValueMembers(selected[1..], value, rest[j]);
          var k :| 0 <= k < |selected[1..]| && selected[1..][k] == rest[j];
          assert selected[k + 1] == rest[j];
        }
        var r := [selected[0]] + rest;
        forall i, j | 0 <= i < j < |r|
          ensures r[i].value != r[j].value
        {
          if i > 0 {
            assert r[i] == rest[i - 1] && r[j] == rest[j - 1];
          }
        }
      }
    }
  }

  /** A click keeps the selection free of repeated values: the drop-down never holds one twice. */
  lemma ToggleDistinct(selected: seq<Choice>, option: Choice)
    requires Distinct(selected)
    ensures Distinct(Toggle(selected, option))
  {
    if IsSelected(selected, option.value) {
      WithoutValueDistinct(selected, option.value);
    } else {
      var t := selected + [option];
      forall i, j | 0 <= i < j < |t|
        ensures t[i].value != t[j].value
      {
        if j == |selected| {
          assert t[i] == selected[i];
        }
      }
    }
  }

  /** Removing keeps every other entry, in order, and drops all entries with the value. */
  lemma RemoveKeepsOthers(selected: seq<Choice>, option: Choice, c: Choice)
    ensures RemoveClick(selected, option, false).Some?
    ensures c in RemoveClick(selected, option, false).value <==> c in selected && c.value != option.value
  {
    WithoutValueMembers(selected, option.value, c);
  }
}
