/**
 * BaseFormViewBinder: the set-up and the listeners shared by the binders
 * of text-like elements. Each `On...` method is the body of one listener;
 * the matching `Set...`/`Add...` method installs it.
 */
module BaseBinder {
  import opened Values
  import opened Widgets
  import opened Elements

  /** EditorInfo.IME_ACTION_DONE. */
  const IME_ACTION_DONE: int := 6

  /**
   * The widget parts a binder hands to baseSetup; None means that binder's
   * baseSetup does not take that part (the binders of this model call
   * baseSetup with different sets of parts).
   */
  datatype Parts = Parts(divider: Option<View?>, title: Option<View?>, error: Option<View?>,
                         mainLayout: Option<View?>, edit: Option<EditRef>)

  /** The parts of the five-reference baseSetup of BaseFormViewBinder. */
  function AllParts(divider: View?, title: View?, error: View?, mainLayout: View?): Parts
  {
    Parts(Some(divider), Some(title), Some(error), Some(mainLayout), None)
  }

  /** The change gate: a widget-observed value commits only if it differs from the element's. */
  predicate ShouldCommit(current: string, candidate: string)
  {
    current != candidate
  }

  /** The prompt shown before the editor opens. */
  datatype Prompt = Prompt(title: string, message: string)

  /** The default prompt strings of the resources. */
  datatype Defaults = Defaults(confirmTitle: string, confirmMessage: string)

  /** Overwrites exactly the widget references supplied; the value and the error are untouched. */
  method BaseSetup(e: FormElement, itemView: View, parts: Parts)
    modifies e`itemView, e`dividerView, e`titleView, e`errorView, e`mainLayoutView, e`editView
    ensures e.itemView == itemView
    ensures e.dividerView == parts.divider.GetOr(old(e.dividerView))
    ensures e.titleView == parts.title.GetOr(old(e.titleView))
    ensures e.errorView == parts.error.GetOr(old(e.errorView))
    ensures e.mainLayoutView == parts.mainLayout.GetOr(old(e.mainLayoutView))
    ensures e.editView == parts.edit.GetOr(old(e.editView))
    ensures e.value == old(e.value) && e.error == old(e.error)
  {
    e.itemView := itemView;
    if parts.divider.Some? { e.dividerView := parts.divider.value; }
    if parts.title.Some? { e.titleView := parts.title.value; }
    if parts.error.Some? { e.errorView := parts.error.value; }
    if parts.mainLayout.Some? { e.mainLayoutView := parts.mainLayout.value; }
    if parts.edit.Some? { e.editView := parts.edit.value; }
  }

  /** On a ClearableEditText: show the clear button as `clearable` says and install the clear listener. */
  method SetClearableListener(e: FormElement)
    modifies e.EditFrame()`displayClear, e.EditFrame()`clearListener
    ensures e.editView.Edit? && e.editView.edit.clearable ==>
      e.editView.edit.displayClear == e.clearable && e.editView.edit.clearListener
    ensures !(e.editView.Edit? && e.editView.edit.clearable) ==> unchanged(e.EditFrame())
    ensures e.editView.Edit? ==> e.editView.edit.text == old(e.editView.edit.text)
  {
    match e.editView
    case Edit(it) =>
      if it.clearable {
        it.displayClear := e.clearable;
        it.clearListener := true;
      }
    case _ =>
  }

  /** The clear listener: clears the element itself, not just the visible text. */
  method OnClearText(e: FormElement)
    modifies e`value, e`clearCalls
    ensures e.clearCalls == old(e.clearCalls) + 1
    ensures e.value == None
  {
    e.Clear();
  }

  /** Makes the edit view unfocusable and routes clicks on the row and on the edit view through the confirmation gate. */
  method SetOnClickListener(e: FormElement, itemView: View)
    modifies e.EditFrame()`focusable, e.EditFrame()`onClick, itemView`onClick
    ensures itemView.onClick == ConfirmThenOpen
    ensures e.editView.Edit? ==> !e.editView.edit.focusable && e.editView.edit.onClick == ConfirmThenOpen
    ensures e.editView.Edit? ==> e.editView.edit.text == old(e.editView.edit.text)
  {
    match e.editView {
      case Edit(it) => it.focusable := false;
      case _ =>
    }
    itemView.onClick := ConfirmThenOpen;
    match e.editView {
      case Edit(it) => it.onClick := ConfirmThenOpen;
      case _ =>
    }
  }

  /**
   * The click listener. `accepted` is the user's answer to the prompt, used
   * only when a prompt is shown; `editorShown` says whether the editor dialog is
   * shown. Nothing of the element changes whatever happens.
   */
  method OnClick(e: FormElement, defaults: Defaults, accepted: bool) returns (prompt: Option<Prompt>, editorShown: bool)
    ensures !e.confirmEdit || e.ValueAsString() == "" ==> prompt == None && editorShown
    ensures e.confirmEdit && e.ValueAsString() != "" && e.value.Some? ==>
      prompt == Some(Prompt(e.confirmTitle.GetOr(defaults.confirmTitle), e.confirmMessage.GetOr(defaults.confirmMessage)))
      && (editorShown <==> accepted)
    ensures e.confirmEdit && e.ValueAsString() != "" && e.value.None? ==> prompt == None && !editorShown
    ensures prompt.Some? <==> e.confirmEdit && e.ValueAsString() != "" && e.value.Some?
    ensures e.value.None? && e.asString(None) == "" ==> prompt == None && editorShown
  {
    if !e.confirmEdit || e.ValueAsString() == "" {
      prompt, editorShown := None, true;
    } else if e.confirmEdit && e.value != None {
      prompt := Some(Prompt(e.confirmTitle.GetOr(defaults.confirmTitle), e.confirmMessage.GetOr(defaults.confirmMessage)));
      editorShown := accepted;
    } else {
      prompt, editorShown := None, false;
    }
  }

  /** Installs the focus listener on an edit text (the title colours are not modelled). */
  method SetOnFocusChangeListener(e: FormElement)
    modifies e.EditFrame()`focusListener
    ensures e.editView.Edit? ==> e.editView.edit.focusListener && e.editView.edit.text == old(e.editView.edit.text)
  {
    match e.editView
    case Edit(it) => it.focusListener := true;
    case _ =>
  }

  /** The title view, when there is one: the object whose colour a focus change sets. */
  function TitleFrame(e: FormElement): set<View>
    reads e
  {
    if e.titleView != null then {e.titleView} else {}
  }

  /**
   * The focus listener. Focus gained: the value is dropped when
   * clearOnFocus holds. Focus lost: the edit text commits when it differs
   * from valueAsString. The title shows the focused colour while focused.
   */
  method OnFocusChange(e: FormElement, fb: FormBuilder, hasFocus: bool)
    modifies e`value, e`error, fb`log, TitleFrame(e)`emphasised
    ensures e.titleView != null ==> e.titleView.emphasised == hasFocus
    ensures hasFocus ==>
      && e.value == (if e.clearOnFocus then None else old(e.value))
      && e.error == old(e.error)
      && fb.log == old(fb.log)
    ensures !hasFocus && e.editView.Edit? && ShouldCommit(old(e.ValueAsString()), e.editView.edit.text) ==>
      && e.error == None
      && e.value == e.fromText(e.editView.edit.text)
      && fb.log == old(fb.log) + [Notice(e.tag, e.value, None)]
    ensures !hasFocus && !(e.editView.Edit? && ShouldCommit(old(e.ValueAsString()), e.editView.edit.text)) ==>
      e.value == old(e.value) && e.error == old(e.error) && fb.log == old(fb.log)
  {
    if hasFocus {
      if e.clearOnFocus {
        e.value := None;
      }
      if e.titleView != null { e.titleView.emphasised := true; }
    } else {
      if e.titleView != null { e.titleView.emphasised := false; }
      match e.editView
      case Edit(it) =>
        if ShouldCommit(e.ValueAsString(), it.text) {
          e.error := None;
          e.SetValue(e.fromText(it.text));
          fb.OnValueChanged(e);
        }
      case _ =>
    }
  }

  /** Installs the text watcher, but only when the element does not commit on focus change. */
  method AddTextChangedListener(e: FormElement)
    modifies e.EditFrame()`textWatcher
    ensures e.editView.Edit? ==>
      e.editView.edit.textWatcher == (old(e.editView.edit.textWatcher) || !e.updateOnFocusChange)
    ensures e.editView.Edit? ==> e.editView.edit.text == old(e.editView.edit.text)
    ensures e.updateOnFocusChange ==> unchanged(e.EditFrame())
  {
    if !e.updateOnFocusChange {
      match e.editView
      case Edit(it) => it.textWatcher := true;
      case _ =>
    }
  }

  /** The text watcher: a changed text commits, an unchanged one does nothing. */
  method OnTextChanged(e: FormElement, fb: FormBuilder, newText: string)
    modifies e`value, e`error, fb`log
    ensures ShouldCommit(old(e.ValueAsString()), newText) ==>
      && e.error == None
      && e.value == e.fromText(newText)
      && fb.log == old(fb.log) + [Notice(e.tag, e.value, None)]
    ensures !ShouldCommit(old(e.ValueAsString()), newText) ==>
      e.value == old(e.value) && e.error == old(e.error) && fb.log == old(fb.log)
  {
    var currentValue := e.ValueAsString();
    if ShouldCommit(currentValue, newText) {
      e.error := None;
      e.SetValue(e.fromText(newText));
      fb.OnValueChanged(e);
    }
  }

  /**
   * The same text delivered twice notifies at most once, provided the
   * element renders the value it stores for a text as that text.
   */
  method TextChangedTwice(e: FormElement, fb: FormBuilder, newText: string)
    requires e.asString(e.fromText(newText)) == newText
    modifies e`value, e`error, fb`log
    ensures fb.log == old(fb.log) +
      (if old(e.ValueAsString()) != newText then [Notice(e.tag, e.fromText(newText), None)] else [])
  {
    OnTextChanged(e, fb, newText);
    OnTextChanged(e, fb, newText);
  }

  /** Installs the editor-action listener on an edit text. */
  method SetOnEditorActionListener(e: FormElement)
    modifies e.EditFrame()`actionListener
    ensures e.editView.Edit? ==> e.editView.edit.actionListener && e.editView.edit.text == old(e.editView.edit.text)
  {
    match e.editView
    case Edit(it) => it.actionListener := true;
    case _ =>
  }

  /** `(editView as? AppCompatEditText)?.text.toString()`: Kotlin renders the null of a failed cast as "null". */
  function EditTextString(e: FormElement): (s: string)
    reads e, e.EditFrame()
    ensures e.editView.Edit? ==> s == e.editView.edit.text
    ensures !e.editView.Edit? ==> s == "null"
  {
    match e.editView
    case Edit(it) => it.text
    case _ => "null"
  }

  /**
   * The editor-action listener: "Done" commits the edit text even when it
   * is unchanged; any other action does nothing. The event is never consumed.
   */
  method OnEditorAction(e: FormElement, fb: FormBuilder, actionId: int) returns (consumed: bool)
    modifies e`value, e`error, fb`log
    ensures !consumed
    ensures actionId == IME_ACTION_DONE ==>
      && e.error == None
      && e.value == e.fromText(EditTextString(e))
      && fb.log == old(fb.log) + [Notice(e.tag, e.value, None)]
    ensures actionId != IME_ACTION_DONE ==>
      e.value == old(e.value) && e.error == old(e.error) && fb.log == old(fb.log)
  {
    if actionId == IME_ACTION_DONE {
      e.error := None;
      e.SetValue(e.fromText(EditTextString(e)));
      fb.OnValueChanged(e);
    }
    consumed := false;
  }
}
