/** The complaint and feedback form: the type options offered, the
    "other type" selection and confirmation, and submission. */
module FeedbackForm {
  import opened Js
  import Feedback

  /** `OTHER_TYPE_LABEL` */
  const OtherTypeLabel: string := "其它类型"

  /** A radio option of the type list. */
  datatype TypeOption = TypeOption(text: string, value: string)

  /** A configured type as an option: the other-type label and the
      other-type value both become the single other option. */
  function ToOption(t: string, otherValue: string): (o: TypeOption)
    ensures o.value == otherValue <==> (t == OtherTypeLabel || t == otherValue)
    ensures o.value != otherValue ==> o.text == t && o.value == t
  {
    if t == OtherTypeLabel || t == otherValue then TypeOption(OtherTypeLabel, otherValue) else TypeOption(t, t)
  }

  /** Two configured types that give options with the same value give the
      same option, so keeping the first or the last of them is the same. */
  lemma SameValueSameOption(t: string, u: string, otherValue: string)
    requires ToOption(t, otherValue).value == ToOption(u, otherValue).value
    ensures ToOption(t, otherValue) == ToOption(u, otherValue)
  {
  }

  function Values(options: seq<TypeOption>): set<string> {
    set o | o in options :: o.value
  }

  predicate DistinctValues(options: seq<TypeOption>) {
    forall i, j :: 0 <= i < j < |options| ==> options[i].value != options[j].value
  }

  /** One option per value, in order of first appearance, skipping the values
      already in `seen`: the values of `new Map(options.map(o => [o.value, o]))`. */
  function DedupFrom(options: seq<TypeOption>, seen: set<string>): (r: seq<TypeOption>)
    ensures DistinctValues(r)
    ensures Values(r) == Values(options) - seen
    ensures forall o :: o in r ==> o in options
  {
    if options == [] then []
    else
      ValuesCons(options[0], options[1..]);
      assert options == [options[0]] + options[1..];
      if options[0].value in seen then
        DedupFrom(options[1..], seen)
      else
        var rest := DedupFrom(options[1..], seen + {options[0].value});
        DistinctCons(options[0], rest);
        [options[0]] + rest
  }

  /** First-appearance order: the options of a concatenation are those of
      its first part followed by those of the second part whose values the
      first part did not already give; one option is kept exactly when its
      value is new. */
  lemma {:induction false} DedupInOrder(a: seq<TypeOption>, b: seq<TypeOption>, o: TypeOption, seen: set<string>)
    ensures DedupFrom(a + b, seen) == DedupFrom(a, seen) + DedupFrom(b, seen + Values(a))
    ensures DedupFrom([o], seen) == if o.value in seen then [] else [o]
  {
    DedupAppend(a, b, seen);
    DedupOne(o, seen);
  }

  lemma {:induction false} DedupAppend(a: seq<TypeOption>, b: seq<TypeOption>, seen: set<string>)
    ensures DedupFrom(a + b, seen) == DedupFrom(a, seen) + DedupFrom(b, seen + Values(a))
  {
    if a == [] {
      assert a + b == b;
      assert seen + Values(a) == seen;
    } else {
      var x := a[0];
      var rest := a[1..];
      assert (a + b)[0] == x && (a + b)[1..] == rest + b;
      ValuesCons(x, rest);
      assert a == [x] + rest;
      var seen' := if x.value in seen then seen else seen + {x.value};
      assert seen' + Values(rest) == seen + Values(a);
      DedupAppend(rest, b, seen');
    }
  }

  lemma DedupOne(o: TypeOption, seen: set<string>)
    ensures DedupFrom([o], seen) == if o.value in seen then [] else [o]
  {
    assert [o][1..] == [];
  }

  lemma ValuesCons(o: TypeOption, options: seq<TypeOption>)
    ensures Values([o] + options) == {o.value} + Values(options)
  {
    assert forall x :: x in [o] + options <==> x == o || x in options;
  }

  lemma DistinctCons(o: TypeOption, options: seq<TypeOption>)
    requires DistinctValues(options) && o.value !in Values(options)
    ensures DistinctValues([o] + options)
    ensures Values([o] + options) == {o.value} + Values(options)
  {
    ValuesCons(o, options);
    var r := [o] + options;
    forall i, j | 0 <= i < j < |r| ensures r[i].value != r[j].value {
      assert r[j] == options[j - 1];
      if i > 0 {
        assert r[i] == options[i - 1];
      } else {
        assert options[j - 1] in options;
      }
    }
  }

  function OptionsOf(types: seq<string>, otherValue: string): (r: seq<TypeOption>)
    ensures |r| == |types|
    ensures forall i :: 0 <= i < |r| ==> r[i] == ToOption(types[i], otherValue)
  {
    seq(|types|, i requires 0 <= i < |types| => ToOption(types[i], otherValue))
  }

  /** `feedbackTypeOptions`: the configured types trimmed with blanks
      dropped; the defaults when none remain; otherwise one option per
      distinct value, in order of first appearance (`DedupInOrder`), each
      the option of some configured type. */
  function FeedbackTypeOptions(configTypes: seq<string>, defaults: seq<TypeOption>, otherValue: string): (r: seq<TypeOption>)
    ensures Feedback.KeptTypes(configTypes) == [] ==> r == defaults
    ensures Feedback.KeptTypes(configTypes) != [] ==>
      r == DedupFrom(OptionsOf(Feedback.KeptTypes(configTypes), otherValue), {})
    ensures Feedback.KeptTypes(configTypes) != [] ==>
      && DistinctValues(r)
      && Values(r) == Values(OptionsOf(Feedback.KeptTypes(configTypes), otherValue))
      && forall o :: o in r ==> exists t :: t in Feedback.KeptTypes(configTypes) && o == ToOption(t, otherValue)
  {
    var kept := Feedback.KeptTypes(configTypes);
    if kept == [] then defaults
    else
      var r := DedupFrom(OptionsOf(kept, otherValue), {});
      OptionsComeFromTypes(kept, otherValue, r);
      r
  }

  /** Options drawn from the types' options are each the option of a type. */
  lemma OptionsComeFromTypes(types: seq<string>, otherValue: string, r: seq<TypeOption>)
    requires forall o :: o in r ==> o in OptionsOf(types, otherValue)
    ensures forall o :: o in r ==> exists t :: t in types && o == ToOption(t, otherValue)
  {
    var options := OptionsOf(types, otherValue);
    forall o | o in r ensures exists t :: t in types && o == ToOption(t, otherValue) {
      var i :| 0 <= i < |options| && options[i] == o;
      assert types[i] in types;
    }
  }

  /** What `onSubmit` did with the submission. */
  datatype SubmitAnswer = ReturnedFalse | ReturnedOther | Threw

  /** The payload handed to `onSubmit`. */
  datatype FeedbackSubmission = FeedbackSubmission(types: seq<string>, description: string)

  /** The form's four state fields; `otherValue` is `FEEDBACK_TYPE_OTHER_VALUE`. */
  class FeedbackSubmitForm {
    const otherValue: string
    var selectedType: Option<string>
    var otherTypeInput: string
    var confirmedOtherType: string
    var feedbackDescription: string

    /** The confirmed other type is always a trimmed text. */
    predicate Valid()
      reads this
    {
      IsTrimmed(confirmedOtherType)
    }

    constructor(otherValue: string)
      ensures Valid() && this.otherValue == otherValue
      ensures selectedType == None && otherTypeInput == [] && confirmedOtherType == [] && feedbackDescription == []
    {
      this.otherValue := otherValue;
      selectedType := None;
      otherTypeInput := "";
      confirmedOtherType := "";
      feedbackDescription := "";
    }

    /** A type is selected (`!!selectedType`). */
    predicate HasSelectedType()
      reads this
    {
      selectedType.Some? && selectedType.value != []
    }

    predicate HasSelectedOtherType()
      reads this
    {
      selectedType == Some(otherValue)
    }

    /** The other type counts as confirmed when the confirmed text is
        non-empty and still equals the trimmed input. */
    predicate IsOtherTypeConfirmed()
      reads this
      ensures IsOtherTypeConfirmed() ==> IsTrimmed(confirmedOtherType) && !AllSpace(otherTypeInput)
    {
      confirmedOtherType != [] && confirmedOtherType == Trim(otherTypeInput)
    }

    /** `resolvedTypeList`: at most one type, never empty text; nothing when
        no type is selected or the other type is not confirmed. */
    function ResolvedTypeList(): (r: seq<string>)
      reads this
      ensures |r| <= 1
      ensures r == [] <==> !HasSelectedType() || (HasSelectedOtherType() && !IsOtherTypeConfirmed())
      ensures |r| == 1 ==> r[0] != [] && r[0] == (if HasSelectedOtherType() then Trim(otherTypeInput) else selectedType.value)
    {
      if !HasSelectedType() then []
      else if selectedType.value == otherValue then (if IsOtherTypeConfirmed() then [confirmedOtherType] else [])
      else [selectedType.value]
    }

    /** `canSubmit` holds exactly when one type is resolved. */
    predicate CanSubmit()
      reads this
      ensures CanSubmit() <==> |ResolvedTypeList()| == 1
    {
      if !HasSelectedType() then false
      else if HasSelectedOtherType() && !IsOtherTypeConfirmed() then false
      else |ResolvedTypeList()| > 0
    }

    /** `resetState` */
    method ResetState()
      modifies this
      ensures Valid() && !CanSubmit()
      ensures selectedType == None && otherTypeInput == [] && confirmedOtherType == [] && feedbackDescription == []
    {
      selectedType := None;
      otherTypeInput := "";
      confirmedOtherType := "";
      feedbackDescription := "";
    }

    /** `handleCancel`: resets the form (the `onCancel` callback is not
        modelled). */
    method HandleCancel()
      modifies this
      ensures Valid() && !CanSubmit()
      ensures selectedType == None && otherTypeInput == [] && confirmedOtherType == [] && feedbackDescription == []
    {
      ResetState();
    }

    /** `handleTypeChange`: choosing anything but the other type clears the
        other input and its confirmation; an ordinary type is then
        submittable as is. */
    method HandleTypeChange(value: Option<string>)
      requires Valid()
      modifies this
      ensures Valid()
      ensures selectedType == value && feedbackDescription == old(feedbackDescription)
      ensures value != Some(otherValue) ==> otherTypeInput == [] && confirmedOtherType == []
      ensures value == Some(otherValue) ==>
        otherTypeInput == old(otherTypeInput) && confirmedOtherType == old(confirmedOtherType)
      ensures value.Some? && value.value != [] && value != Some(otherValue) ==>
        CanSubmit() && ResolvedTypeList() == [value.value]
    {
      selectedType := value;
      if value != Some(otherValue) {
        otherTypeInput := "";
        confirmedOtherType := "";
      }
    }

    /** `handleOtherTypeConfirm`: refused (with a warning) for a blank
        input; otherwise the trimmed input becomes the confirmed type. */
    method HandleOtherTypeConfirm() returns (accepted: bool)
      requires Valid()
      modifies this
      ensures Valid()
      ensures accepted <==> Trim(old(otherTypeInput)) != []
      ensures selectedType == old(selectedType) && otherTypeInput == old(otherTypeInput)
      ensures feedbackDescription == old(feedbackDescription)
      ensures accepted ==> confirmedOtherType == Trim(otherTypeInput) && IsOtherTypeConfirmed()
      ensures !accepted ==> confirmedOtherType == old(confirmedOtherType)
      ensures accepted && HasSelectedOtherType() && otherValue != [] ==>
        CanSubmit() && ResolvedTypeList() == [Trim(otherTypeInput)]
    {
      var trimmed := Trim(otherTypeInput);
      if trimmed == [] {
        accepted := false;
        return;
      }
      confirmedOtherType := trimmed;
      accepted := true;
    }

    /** `handleOtherTypeCancel`: drops the selection and the other type. */
    method HandleOtherTypeCancel()
      modifies this
      ensures Valid() && !CanSubmit()
      ensures selectedType == None && otherTypeInput == [] && confirmedOtherType == []
      ensures feedbackDescription == old(feedbackDescription)
    {
      selectedType := None;
      otherTypeInput := "";
      confirmedOtherType := "";
    }

    /** `handleOtherTypeInputChange`: an edit whose trimmed text differs
        from the confirmed type withdraws the confirmation, so a kept
        confirmation always matches the input. */
    method HandleOtherTypeInputChange(value: string)
      requires Valid()
      modifies this
      ensures Valid()
      ensures otherTypeInput == value && selectedType == old(selectedType)
      ensures feedbackDescription == old(feedbackDescription)
      ensures confirmedOtherType == (if old(confirmedOtherType) != [] && Trim(value) != old(confirmedOtherType) then [] else old(confirmedOtherType))
      ensures confirmedOtherType != [] ==> IsOtherTypeConfirmed()
      ensures IsOtherTypeConfirmed() <==> old(confirmedOtherType) != [] && Trim(value) == old(confirmedOtherType)
    {
      otherTypeInput := value;
      if confirmedOtherType != [] && Trim(value) != confirmedOtherType {
        confirmedOtherType := "";
      }
    }

    /** The description text area's `onChange`. */
    method HandleDescriptionChange(value: string)
      requires Valid()
      modifies this
      ensures Valid()
      ensures feedbackDescription == value
      ensures selectedType == old(selectedType) && otherTypeInput == old(otherTypeInput)
      ensures confirmedOtherType == old(confirmedOtherType)
    {
      feedbackDescription := value;
    }

    /** `handleSubmit`: nothing is sent (a warning is shown) unless the form
        can be submitted; the submission carries the one resolved type and
        the trimmed description; the form is reset unless `onSubmit`
        returned false or threw. */
    method HandleSubmit(answer: SubmitAnswer) returns (sent: Option<FeedbackSubmission>)
      requires Valid()
      modifies this
      ensures Valid()
      ensures sent.Some? <==> old(CanSubmit())
      ensures sent.Some? ==> |sent.value.types| == 1
      ensures sent.Some? ==> sent.value == FeedbackSubmission(old(ResolvedTypeList()), Trim(old(feedbackDescription)))
      ensures sent.Some? && answer == ReturnedOther ==>
        selectedType == None && otherTypeInput == [] && confirmedOtherType == [] && feedbackDescription == []
      ensures sent.None? || answer != ReturnedOther ==> (
        && selectedType == old(selectedType) && otherTypeInput == old(otherTypeInput)
        && confirmedOtherType == old(confirmedOtherType) && feedbackDescription == old(feedbackDescription))
    {
      if !CanSubmit() {
        sent := None;
        return;
      }
      sent := Some(FeedbackSubmission(ResolvedTypeList(), Trim(feedbackDescription)));
      if answer != ReturnedOther {
        return;
      }
      ResetState();
    }
  }
}
