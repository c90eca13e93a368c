/**
 * The data-collection consent dialog: the tool's Danish name in the text, an unchecked
 * consent box, and the value each way of leaving the dialog hands to `onClose`.
 */
module ConsentDialog {
  import opened Wrappers

  const Calculator := "Gældskalkulatoren"
  const Planner := "Budgetplanlæggeren"
  const Assessment := "Gældsvurderingen"
  const AnyTool := "værktøjet"

  /** `getToolDisplayName`: the three tool keys have their own names, every other key the generic one. */
  function ToolDisplayName(tool: string): (r: string)
    ensures r == Calculator <==> tool == "debt_calculator"
    ensures r == Planner <==> tool == "budget_planner"
    ensures r == Assessment <==> tool == "debt_quiz"
    ensures r == AnyTool <==> tool != "debt_calculator" && tool != "budget_planner" && tool != "debt_quiz"
  {
    if tool == "debt_calculator" then Calculator
    else if tool == "budget_planner" then Planner
    else if tool == "debt_quiz" then Assessment
    else AnyTool
  }

  /** The ways out of the dialog: the two buttons, and closing it by the overlay, Escape or the close icon. */
  datatype Exit = AcceptButton | DeclineButton | Dismiss

  /**
   * The value given to `onClose`: true for accepting, false for declining or dismissing;
   * `None` when the accept button is pressed while disabled, since nothing then happens.
   */
  function OnClose(exit: Exit, hasConsented: bool): (r: Option<bool>)
    ensures r == Some(true) <==> exit == AcceptButton && hasConsented
    ensures r.None? <==> exit == AcceptButton && !hasConsented
  {
    match exit
    case AcceptButton => if hasConsented then Some(true) else None
    case DeclineButton => Some(false)
    case Dismiss => Some(false)
  }

  /** The checkbox after the given sequence of `onCheckedChange` values, starting unchecked. */
  function Checked(changes: seq<bool>): bool {
    if changes == [] then false else changes[|changes| - 1]
  }

  /**
   * Consent is given only through the box: the dialog closes with true exactly when the
   * accept button is pressed and the last change of the box checked it.
   */
  lemma ConsentNeedsCheck(changes: seq<bool>, exit: Exit)
    ensures OnClose(exit, Checked(changes)) == Some(true) <==> exit == AcceptButton && changes != [] && changes[|changes| - 1]
    ensures OnClose(exit, Checked([])) != Some(true)
  {
  }
}
