/**
 * The guided-setup dialog's step logic: three steps, each editing one
 * answer; "next" is enabled only when the visible answer is non-empty, and
 * the final submit only when the hypothesis is.
 */
module Wizard {
  import opened Base
  import opened Types

  class WizardForm {
    var step: int
    var data: WizardData

    /** Steps stay in 1..3, and a step is only reached through the enabled
        buttons of the steps before it. */
    ghost predicate Valid()
      reads this
    {
      && 1 <= step <= 3
      && (step >= 2 ==> data.field != "")
      && (step == 3 ==> data.phenomenon != "")
    }

    constructor ()
      ensures Valid()
      ensures step == 1 && data == WizardData("", "", "")
    {
      step := 1;
      data := WizardData("", "", "");
    }

    /** The "next" button: shown below step 3, disabled while the visible answer is empty. */
    function NextEnabled(): bool
      reads this
    {
      step < 3 && (if step == 1 then data.field != "" else data.phenomenon != "")
    }

    method NextStep()
      requires Valid()
      modifies this
      ensures Valid()
      ensures data == old(data)
      ensures step == if old(NextEnabled()) then old(step) + 1 else old(step)
    {
      if NextEnabled() {
        step := step + 1;
      }
    }

    /** The "back" button, shown from step 2 on. */
    method PrevStep()
      requires Valid()
      modifies this
      ensures Valid()
      ensures data == old(data)
      ensures step == if old(step) > 1 then old(step) - 1 else old(step)
    {
      if step > 1 {
        step := step - 1;
      }
    }

    /** Typing into the one input the current step shows. */
    method Edit(text: string)
      requires Valid()
      modifies this
      ensures Valid()
      ensures step == old(step)
      ensures data == if step == 1 then old(data).(field := text)
                      else if step == 2 then old(data).(phenomenon := text)
                      else old(data).(hypothesis := text)
    {
      if step == 1 {
        data := data.(field := text);
      } else if step == 2 {
        data := data.(phenomenon := text);
      } else {
        data := data.(hypothesis := text);
      }
    }

    /** The "start" button on step 3; whatever it hands on has all three answers. */
    method Submit() returns (r: Option<WizardData>)
      requires Valid()
      ensures r.Some? <==> step == 3 && data.hypothesis != ""
      ensures r.Some? ==> r.value == data
      ensures r.Some? ==> r.value.field != "" && r.value.phenomenon != "" && r.value.hypothesis != ""
    {
      if step == 3 && data.hypothesis != "" {
        return Some(data);
      }
      r := None;
    }
  }
}
