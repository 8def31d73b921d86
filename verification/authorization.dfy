/**
 * The tournament action hook (`onAction`, TM/TM.hpp:103-126): the host asks
 * before carrying out a privileged action, and the answer depends only on the
 * action, the flag it would enable and the allow-user-input setting.
 */
module Authorization {
  /** The host's tournament action identifiers. */
  datatype ActionKind =
    | EnableFlag
    | PauseGame
    | ResumeGame
    | LeaveGame
    | SetLocalSpeed
    | SetTextSize
    | SetLatCom
    | SetGUI
    | SetMap
    | SetFrameSkip
    | Printf
    | SendText
    | SetCommandOptimizationLevel

  /** Flag numbers the host passes with `EnableFlag`. */
  const CompleteMapInformation: int := 0
  const UserInput: int := 1

  /** The actions that are approved whatever their parameter. */
  const AlwaysApproved: set<ActionKind> :=
    {LeaveGame, SetLatCom, SetTextSize, SendText, Printf, SetCommandOptimizationLevel}

  /**
   * Whether the action may go ahead. `flag` is the integer the parameter
   * points to; only `EnableFlag` reads it.
   */
  function OnAction(action: ActionKind, flag: int, allowUserInput: bool): (approved: bool)
    ensures action == EnableFlag && flag == CompleteMapInformation ==> !approved
    ensures action == EnableFlag && flag == UserInput ==> approved == allowUserInput
    ensures action == EnableFlag && flag != CompleteMapInformation && flag != UserInput ==> approved
    ensures action != EnableFlag ==> (approved <==> action in AlwaysApproved)
  {
    match action
    case EnableFlag =>
      if flag == CompleteMapInformation then false
      else if flag == UserInput then allowUserInput
      else true
    case LeaveGame => true
    case SetLatCom => true
    case SetTextSize => true
    case SendText => true
    case Printf => true
    case SetCommandOptimizationLevel => true
    case _ => false
  }

  /** Full map information is never granted, whatever the configuration. */
  lemma MapRevealNeverGranted(allowUserInput: bool)
    ensures !OnAction(EnableFlag, CompleteMapInformation, allowUserInput)
  {
  }

  /**
   * The allow-user-input setting decides exactly one request, enabling the
   * user-input flag, and granting it never withdraws another approval.
   */
  lemma UserInputSettingScope(action: ActionKind, flag: int)
    ensures OnAction(action, flag, false) ==> OnAction(action, flag, true)
    ensures OnAction(action, flag, false) != OnAction(action, flag, true)
        <==> action == EnableFlag && flag == UserInput
  {
  }
}
