/**
 * FormTokenAutoCompleteViewBinder: binds a token element to an edit text.
 * A text change re-fetches the element from the coordinator by tag and
 * commits only a text that differs from that element's valueAsString.
 */
module TokenBinder {
  import opened Values
  import opened Widgets
  import opened Elements
  import opened BaseBinder

  class TokenViewBinder {
    const formBuilder: FormBuilder

    constructor (formBuilder: FormBuilder)
      ensures this.formBuilder == formBuilder
    {
      this.formBuilder := formBuilder;
    }

    /**
     * The bind lambda: base set-up with title, error and row, the text and
     * hint shown before the watcher is installed (so binding notifies
     * nobody), the row click, the focus listener and the text watcher.
     */
    method Bind(model: FormElement, itemView: View, titleView: View, errorView: View, editText: EditText)
      modifies model`itemView, model`dividerView, model`titleView, model`errorView, model`mainLayoutView,
               model`editView, editText`text, editText`hint, editText`focusListener, editText`textWatcher,
               itemView`onClick
      ensures model.itemView == itemView && model.titleView == titleView && model.errorView == errorView
      ensures model.dividerView == old(model.dividerView) && model.mainLayoutView == old(model.mainLayoutView)
      ensures model.editView == old(model.editView)
      ensures editText.text == model.ValueAsString()
      ensures editText.hint == model.hint.GetOr("")
      ensures itemView.onClick == FocusEditor(editText)
      ensures editText.focusListener && editText.textWatcher
      ensures model.value == old(model.value) && model.error == old(model.error)
      ensures formBuilder.log == old(formBuilder.log)
    {
      BaseSetup(model, itemView, Parts(None, Some(titleView), Some(errorView), None, None));
      editText.text := model.ValueAsString();
      editText.hint := model.hint.GetOr("");
      itemView.onClick := FocusEditor(editText);
      editText.focusListener := true;
      editText.textWatcher := true;
    }

    /** The focus listener changes only the title's colour. */
    method OnFocusChange(titleView: View, hasFocus: bool)
      modifies titleView`emphasised
      ensures titleView.emphasised == hasFocus
    {
      titleView.emphasised := hasFocus;
    }

    /**
     * The text watcher. The element is looked up again by tag (the source's
     * `!!` fails when it is missing); a differing text sets its value, then
     * clears its error and hides the error view, then notifies once.
     */
    method OnTextChanged(model: FormElement, errorView: View, newText: string)
      requires model.tag in formBuilder.elements
      modifies (formBuilder.elements[model.tag] as FormElement)`value, (formBuilder.elements[model.tag] as FormElement)`error,
               errorView`visible, formBuilder`log
      ensures var fe := formBuilder.elements[model.tag];
        && (ShouldCommit(old(fe.ValueAsString()), newText) ==>
              && fe.value == fe.fromText(newText)
              && fe.error == None
              && !errorView.visible
              && formBuilder.log == old(formBuilder.log) + [Notice(fe.tag, fe.value, None)])
        && (!ShouldCommit(old(fe.ValueAsString()), newText) ==>
              && fe.value == old(fe.value) && fe.error == old(fe.error)
              && errorView.visible == old(errorView.visible)
              && formBuilder.log == old(formBuilder.log))
    {
      var formElement := formBuilder.GetFormElement(model.tag).value;
      var currentValue := formElement.ValueAsString();
      if ShouldCommit(currentValue, newText) {
        formElement.SetValue(formElement.fromText(newText));
        formElement.error := None;
        HideError(errorView);
        formBuilder.OnValueChanged(formElement);
      }
    }

    /** setError(view, null): the error view is hidden. */
    method HideError(errorView: View)
      modifies errorView`visible
      ensures !errorView.visible
    {
      errorView.visible := false;
    }
  }
}
