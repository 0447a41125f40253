/**
 * The onboarding form's state: the user's goal as it is being filled in and
 * the equipment text box, with the "Add" action that moves the box's trimmed
 * text onto the equipment list.
 */
module Onboarding {
  import opened Wrappers
  import opened Text
  import opened Schemas

  /** The form before the user touches it. */
  function InitialForm(): (f: UserGoal)
    ensures f.goal == GeneralFitness && f.level == Beginner
    ensures f.constraints == Some([]) && f.equipment == [] && f.daysPerWeek == 3
    ensures f.Valid()
  {
    UserGoal(GeneralFitness, Beginner, Some([]), [], 3)
  }

  /** The form with `item` appended as the last equipment entry and every other field as it was. */
  function WithEquipment(f: UserGoal, item: string): (g: UserGoal)
    ensures |g.equipment| == |f.equipment| + 1
    ensures g.equipment[..|f.equipment|] == f.equipment && g.equipment[|f.equipment|] == item
    ensures g.goal == f.goal && g.level == f.level && g.constraints == f.constraints && g.daysPerWeek == f.daysPerWeek
  {
    f.(equipment := f.equipment + [item])
  }

  /** An equipment entry as the form produces it: non-empty, with no surrounding whitespace. */
  predicate TrimmedEntry(e: string, ws: set<char>) {
    e != [] && e[0] !in ws && e[|e| - 1] !in ws
  }

  predicate AllTrimmed(entries: seq<string>, ws: set<char>) {
    forall i :: 0 <= i < |entries| ==> TrimmedEntry(entries[i], ws)
  }

  /** Appending the trimmed form of non-blank input keeps every entry trimmed. */
  lemma AppendKeepsTrimmed(entries: seq<string>, input: string, ws: set<char>)
    requires AllTrimmed(entries, ws) && !AllIn(input, ws)
    ensures AllTrimmed(entries + [Strip(input, ws)], ws)
  {
    var item := Strip(input, ws);
    assert TrimmedEntry(item, ws);
    assert forall i :: 0 <= i < |entries| ==> (entries + [item])[i] == entries[i];
  }

  class OnboardingForm {
    var form: UserGoal
    var equipmentInput: string

    /** Every equipment entry came through `AddEquipment`, so each is trimmed and non-empty. */
    ghost predicate EntriesTrimmed()
      reads this
    {
      AllTrimmed(form.equipment, JsWhitespace)
    }

    constructor ()
      ensures form == InitialForm() && equipmentInput == []
      ensures EntriesTrimmed()
    {
      form := InitialForm();
      equipmentInput := [];
    }

    /** The text box's change handler. */
    method SetEquipmentInput(value: string)
      modifies this
      ensures equipmentInput == value && form == old(form)
    {
      equipmentInput := value;
    }

    /**
     * Blank or whitespace-only input changes nothing.  Otherwise the trimmed
     * input becomes the last equipment entry and the box is emptied.
     */
    method AddEquipment()
      modifies this
      requires EntriesTrimmed()
      ensures EntriesTrimmed()
      ensures AllIn(old(equipmentInput), JsWhitespace) ==> form == old(form) && equipmentInput == old(equipmentInput)
      ensures !AllIn(old(equipmentInput), JsWhitespace) ==>
                form == WithEquipment(old(form), Strip(old(equipmentInput), JsWhitespace)) && equipmentInput == []
    {
      var item := Strip(equipmentInput, JsWhitespace);
      if item == [] {
        return;
      }
      AppendKeepsTrimmed(form.equipment, equipmentInput, JsWhitespace);
      form := WithEquipment(form, item);
      equipmentInput := [];
    }
  }

  /** Adding the same text twice lists it twice: entries are not deduplicated. */
  lemma {:induction false} AddTwiceListsTwice(f: UserGoal, input: string)
    requires !AllIn(input, JsWhitespace)
    ensures var item := Strip(input, JsWhitespace);
      var g := WithEquipment(WithEquipment(f, item), item);
      g.equipment == f.equipment + [item, item]
  {
    var item := Strip(input, JsWhitespace);
    var g := WithEquipment(WithEquipment(f, item), item);
    assert g.equipment == f.equipment + [item] + [item];
  }

  /** A padded entry is added as its trimmed text, and adding already-trimmed text keeps it as typed. */
  lemma AddedEntryIsTrimmed(input: string)
    requires !AllIn(input, JsWhitespace)
    ensures TrimmedEntry(Strip(input, JsWhitespace), JsWhitespace)
    ensures Strip(Strip(input, JsWhitespace), JsWhitespace) == Strip(input, JsWhitespace)
  {
    StripIdempotent(input, JsWhitespace);
  }
}
