/** The reset confirmation dialog of src/components/ResetConfirmSheet.tsx:
    one "skip next time" checkbox whose value is reported on confirm. */
module ResetConfirmSheet {

  /** The callbacks the dialog invokes on the page. */
  datatype Callback = OnConfirm(skipNext: bool) | OnCancel

  class Dialog {
    var skipNext: bool

    /** Each time the dialog is shown it is created afresh, unchecked. */
    constructor()
      ensures !skipNext
    {
      skipNext := false;
    }

    /** The checkbox's change handler takes the checkbox's checked value. */
    method SetSkipNext(checked: bool)
      modifies this
      ensures skipNext == checked
    {
      skipNext := checked;
    }

    /** The confirm button reports the current checkbox value. */
    method Confirm() returns (fired: Callback)
      ensures fired == OnConfirm(skipNext)
    {
      fired := OnConfirm(skipNext);
    }

    /** The cancel button and the scrim: `onCancel`, never `onConfirm`. */
    method Cancel() returns (fired: Callback)
      ensures fired == OnCancel && !fired.OnConfirm?
    {
      fired := OnCancel;
    }
  }
}
