/**
 * The Android widgets the binders touch, reduced to the state the binders
 * read or write. A listener field records which handler the binder
 * installed; the handler bodies themselves are the binder methods.
 */
module Widgets {
  import opened Values

  /** What a click on a view does, as installed by a binder. */
  datatype ClickAction =
    | NoClick
    | ConfirmThenOpen        // BaseFormViewBinder.setOnClickListener: confirmation gate, then the dialog
    | InvokeOnClick          // the element's own onClick callback
    | ToggleSwitch(sw: Switch) // FormSwitchViewBinder.setSwitchFocusEnabled
    | FocusEditor(edit: EditText) // FormTokenAutoCompleteViewBinder.setEditTextFocusEnabled

  /** A plain view or text view: item row, divider, title, error label, main layout, readout. */
  class View {
    var text: string
    var visible: bool
    var emphasised: bool     // the title shows its focused colour
    var onClick: ClickAction

    constructor ()
      ensures text == "" && visible && !emphasised && onClick == NoClick
    {
      text, visible, emphasised, onClick := "", true, false, NoClick;
    }
  }

  /** AppCompatEditText; `clearable` marks the ClearableEditText subclass. */
  class EditText {
    const clearable: bool
    var text: string
    var hint: string
    var focusable: bool
    var displayClear: bool
    var clearListener: bool
    var focusListener: bool
    var textWatcher: bool
    var actionListener: bool
    var onClick: ClickAction

    constructor (clearable: bool)
      ensures this.clearable == clearable && text == "" && hint == "" && focusable
      ensures !displayClear && !clearListener && !focusListener && !textWatcher && !actionListener
      ensures onClick == NoClick
    {
      this.clearable := clearable;
      text, hint, focusable := "", "", true;
      displayClear, clearListener, focusListener, textWatcher, actionListener := false, false, false, false, false;
      onClick := NoClick;
    }
  }

  /** AppCompatSeekBar. */
  class SeekBar {
    var progress: int
    var max: int
    var listener: bool

    constructor ()
      ensures progress == 0 && max == 100 && !listener
    {
      progress, max, listener := 0, 100, false;
    }
  }

  /** The SegmentedGroup widget with its one-bit `holdup` latch. */
  class SegmentedGroup {
    var holdup: bool
    var listener: bool

    constructor (holdup: bool)
      ensures this.holdup == holdup && !listener
    {
      this.holdup, listener := holdup, false;
    }
  }

  /** SwitchCompat. */
  class Switch {
    var checked: bool
    var listener: bool
    var onClick: ClickAction

    constructor ()
      ensures !checked && !listener && onClick == NoClick
    {
      checked, listener, onClick := false, false, NoClick;
    }
  }

  /** The element's `editView`, whose static type is View: the `as?` casts of the source are matches on this. */
  datatype EditRef =
    | NoEdit
    | Edit(edit: EditText)
    | Seek(bar: SeekBar)
    | Segments(group: SegmentedGroup)
    | Toggle(sw: Switch)
    | OtherView(view: View)
}
