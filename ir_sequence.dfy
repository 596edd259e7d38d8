/**
 * The naming rule that `create` applies to loans and members: a record whose
 * reference is absent or the placeholder 'New' draws its reference from the
 * record's `ir.sequence`; the sequence itself is outside this model, so its
 * next value arrives as an input (`None` when no sequence is configured).
 */
module IrSequence {
  import opened Optional

  /** The placeholder reference `_('New')` (translation is not modelled). */
  const New: string := "New"

  /**
   * `vals.get(key, 'New') == 'New'` decides whether the sequence is consulted;
   * `next_by_code(...) or 'New'` falls back to the placeholder when the
   * sequence yields nothing (False or the empty string).
   */
  function AssignName(supplied: Option<string>, next: Option<string>): (name: string)
    // an explicit reference other than the placeholder is kept whatever the sequence says
    ensures supplied.Some? && supplied.value != New ==> name == supplied.value
    // otherwise the reference is the sequence value, or the placeholder when there is none
    ensures supplied.None? || supplied.value == New ==>
              name == (if next.Some? && next.value != "" then next.value else New)
  {
    if supplied.None? || supplied.value == New then
      if next.Some? && next.value != "" then next.value else New
    else
      supplied.value
  }

  /** A record that already got a real reference keeps it when created again with it. */
  lemma AssignNameStable(supplied: Option<string>, next: Option<string>, later: Option<string>)
    requires AssignName(supplied, next) != New
    ensures AssignName(Some(AssignName(supplied, next)), later) == AssignName(supplied, next)
  {
  }

  /** The placeholder survives only when the sequence yields nothing. */
  lemma PlaceholderOnlyWithoutSequence(supplied: Option<string>, next: Option<string>)
    requires supplied.None? || supplied.value == New
    ensures AssignName(supplied, next) == New <==> next.None? || next.value == "" || next.value == New
  {
  }
}
