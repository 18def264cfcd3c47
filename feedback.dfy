/**
 * Audio feedback: which click sound playClick asks the AudioManager for.
 * Only the classification is modelled; playing the sound is the host's.
 */
module Feedback {
  import opened KeyCodes

  /** The AudioManager key-press effects the service uses. */
  datatype Sound = FxSpacebar | FxReturn | FxDelete | FxStandard

  /** playClick's `when`: every code gets exactly one sound, STANDARD by default. */
  function ClassifyClick(keyCode: int): (s: Sound)
    ensures s == FxSpacebar <==> keyCode == 32
    ensures s == FxReturn <==> keyCode == KEYCODE_DONE || keyCode == 10
    ensures s == FxDelete <==> keyCode == KEYCODE_DELETE
    ensures s == FxStandard <==> keyCode !in {32, KEYCODE_DONE, 10, KEYCODE_DELETE}
  {
    if keyCode == 32 then FxSpacebar
    else if keyCode == KEYCODE_DONE || keyCode == 10 then FxReturn
    else if keyCode == KEYCODE_DELETE then FxDelete
    else FxStandard
  }
}
