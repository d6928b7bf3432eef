/** The progress indicator of src/components/Steps/index.js. */
module Steps {

  datatype Icon = Done | Current | Next

  /** The icon of position `i` (0-based) among the first `totalSteps - 1`. */
  function LeadingIcon(step: int, i: int): Icon {
    if i + 1 < step then Done else if i + 1 == step then Current else Next
  }

  /** Whether connecting line `i` is drawn in the "done" colour. */
  predicate LineDone(step: int, i: int) {
    i + 1 <= step - 1
  }

  /** The last icon. */
  function LastIcon(step: int, totalSteps: int): Icon {
    if step == totalSteps then Current else if step > totalSteps then Done else Next
  }

  /** What the component draws: its icons and its connecting lines. */
  datatype Drawing = Drawing(icons: seq<Icon>, lines: seq<bool>)

  /**
   * `[...Array(totalSteps - 1)].map(...)` followed by the last icon;
   * `Array(n)` throws for a negative `n`, hence `totalSteps >= 1`.
   */
  function Draw(step: int, totalSteps: int): (d: Drawing)
    requires totalSteps >= 1
    ensures |d.icons| == totalSteps && |d.lines| == totalSteps - 1
    ensures forall i :: 0 <= i < totalSteps - 1 ==> d.lines[i] == (d.icons[i] == Done)
  {
    var leading := seq(totalSteps - 1, i => LeadingIcon(step, i));
    var lines := seq(totalSteps - 1, i => LineDone(step, i));
    Drawing(leading + [LastIcon(step, totalSteps)], lines)
  }

  /** Where `step` is in range, icons read Done... Current Next... with the current one at `step - 1`. */
  lemma DrawShape(step: int, totalSteps: int)
    requires 1 <= step <= totalSteps
    ensures var icons := Draw(step, totalSteps).icons;
      forall i :: 0 <= i < totalSteps ==>
        icons[i] == (if i < step - 1 then Done else if i == step - 1 then Current else Next)
  {
  }

  /** Where `step` is in range exactly one icon is Current. */
  lemma {:induction false} ExactlyOneCurrent(step: int, totalSteps: int, j: int)
    requires 1 <= step <= totalSteps && 0 <= j < totalSteps
    ensures Draw(step, totalSteps).icons[j] == Current <==> j == step - 1
  {
    DrawShape(step, totalSteps);
  }

  /** Past the last step every icon is Done; no icon is Current. */
  lemma AllDonePastEnd(step: int, totalSteps: int, j: int)
    requires 1 <= totalSteps < step && 0 <= j < totalSteps
    ensures Draw(step, totalSteps).icons[j] == Done
  {
  }
}
