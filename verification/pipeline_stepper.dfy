/** The stepper: a projection of the controller's four cells onto five display steps. */
module PipelineStepper {
  import opened Controller

  datatype Step = Step(id: nat, name: string, done: bool)

  /** The `steps` array built from the four props. */
  function Steps(uploaded: bool, preprocessed: bool, splitDone: bool, trained: bool): (steps: seq<Step>)
    ensures |steps| == 5
    ensures forall i :: 0 <= i < 5 ==> steps[i].id == i + 1
    ensures steps[0].done == uploaded && steps[1].done == preprocessed && steps[2].done == splitDone
    ensures steps[3].done == trained && steps[4].done == trained
  {
    [ Step(1, "Upload", uploaded),
      Step(2, "Preprocess", preprocessed),
      Step(3, "Split", splitDone),
      Step(4, "Model", trained),
      Step(5, "Results", trained) ]
  }

  /** The step names, in display order. */
  lemma StepNames(u: bool, p: bool, s: bool, t: bool)
    ensures var steps := Steps(u, p, s, t);
      [steps[0].name, steps[1].name, steps[2].name, steps[3].name, steps[4].name]
        == ["Upload", "Preprocess", "Split", "Model", "Results"]
  {
  }

  /** The decimal digits of `n`, as JSX renders a number. */
  function Decimal(n: nat): (s: string)
    ensures s != []
    ensures forall i :: 0 <= i < |s| ==> '0' <= s[i] <= '9'
    ensures n > 0 ==> s[0] != '0'
  {
    if n < 10 then [('0' as int + n) as char]
    else Decimal(n / 10) + [('0' as int + n % 10) as char]
  }

  /** The number a string of decimal digits denotes. */
  function DigitsValue(s: string): nat
    requires forall i :: 0 <= i < |s| ==> '0' <= s[i] <= '9'
  {
    if s == [] then 0
    else DigitsValue(s[..|s| - 1]) * 10 + (s[|s| - 1] as int - '0' as int)
  }

  /** Reading back the digits of `n` gives `n`. */
  lemma {:induction false} DecimalValue(n: nat)
    ensures DigitsValue(Decimal(n)) == n
  {
    var s := Decimal(n);
    if n >= 10 {
      DecimalValue(n / 10);
      assert s[..|s| - 1] == Decimal(n / 10);
    } else {
      assert s[..0] == [];
    }
  }

  /** The dot of a step: a check mark once done, else its number. */
  function Dot(step: Step): (glyph: string)
    ensures step.done ==> glyph == "✓"
    ensures !step.done ==> glyph == Decimal(step.id)
  {
    if step.done then "✓" else Decimal(step.id)
  }

  /** How `App` renders the stepper: `uploaded={!!uploaded}`, `trained={!!results}`. */
  function StepsOf(s: Flags): seq<Step> {
    Steps(s.uploaded.Some?, s.preprocessed, s.splitDone, s.results.Some?)
  }

  /**
   * In a consistent controller state the Model and Results steps are done
   * together, and only once Split and Upload are; Split and Preprocess are
   * done only once Upload is. Preprocess may stay undone while Split is done.
   */
  lemma StepperShowsProgress(s: Flags)
    requires Consistent(s)
    ensures var steps := StepsOf(s);
      && steps[3].done == steps[4].done
      && (steps[3].done ==> steps[2].done)
      && (steps[2].done ==> steps[0].done)
      && (steps[1].done ==> steps[0].done)
  {
  }

  /** An undone step shows its own number, one digit for the five steps. */
  lemma UndoneDots(u: bool, p: bool, s: bool, t: bool, i: nat)
    requires i < 5 && !Steps(u, p, s, t)[i].done
    ensures Dot(Steps(u, p, s, t)[i]) == [('1' as int + i) as char]
  {
  }
}
