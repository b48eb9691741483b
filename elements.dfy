/**
 * The form element (BaseFormElement and its kinds, one class here) and the
 * coordinator the binders notify (FormBuildHelper).
 *
 * The element model files are not part of this model. What the binders
 * use of them is kept abstract: `valueAsString`, `setValue` applied to the
 * text of an edit view and `isOn()` are functions each element is built
 * with; `setValue` on a value is plain assignment; `clear()` resets the
 * value to absent.
 */
module Elements {
  import opened Values
  import opened Widgets

  /** What the coordinator sees when it is notified: the element's tag, value and error at that moment. */
  datatype Notice = Notice(tag: int, value: Option<Value>, error: Option<string>)

  class FormElement {
    const tag: int
    /** valueAsString as a function of the value. */
    const asString: Option<Value> -> string
    /** The value setValue stores when given the text of an edit view. */
    const fromText: string -> Option<Value>
    /** isOn() as a function of the value (switch elements). */
    const isOnOf: Option<Value> -> bool

    var value: Option<Value>
    var error: Option<string>
    var hint: Option<string>

    var clearable: bool
    var clearOnFocus: bool
    var updateOnFocusChange: bool
    var confirmEdit: bool
    var confirmTitle: Option<string>
    var confirmMessage: Option<string>

    // segmented choices
    var options: Option<seq<Value>>
    // slider bounds and grid
    var min: int
    var max: int
    var steps: Option<int>
    var incrementBy: Option<int>
    // switch values
    var onValue: Option<Value>
    var offValue: Option<Value>

    /** Whether the element has an onClick callback, and how often it has been invoked. */
    var hasOnClick: bool
    ghost var onClickCalls: nat
    /** How often clear() has been called. */
    ghost var clearCalls: nat

    // widget references, overwritten on every bind
    var itemView: View?
    var dividerView: View?
    var titleView: View?
    var errorView: View?
    var mainLayoutView: View?
    var editView: EditRef

    constructor (tag: int, asString: Option<Value> -> string, fromText: string -> Option<Value>,
                 isOnOf: Option<Value> -> bool)
      ensures this.tag == tag && this.asString == asString && this.fromText == fromText && this.isOnOf == isOnOf
      ensures value == None && error == None && hint == None
      ensures !clearable && !clearOnFocus && !updateOnFocusChange && !confirmEdit
      ensures confirmTitle == None && confirmMessage == None && options == None
      ensures min == 0 && max == 100 && steps == None && incrementBy == None
      ensures onValue == None && offValue == None && !hasOnClick && onClickCalls == 0 && clearCalls == 0
      ensures itemView == null && dividerView == null && titleView == null && errorView == null
      ensures mainLayoutView == null && editView == NoEdit
    {
      this.tag, this.asString, this.fromText, this.isOnOf := tag, asString, fromText, isOnOf;
      value, error, hint := None, None, None;
      clearable, clearOnFocus, updateOnFocusChange, confirmEdit := false, false, false, false;
      confirmTitle, confirmMessage, options := None, None, None;
      min, max, steps, incrementBy := 0, 100, None, None;
      onValue, offValue, hasOnClick := None, None, false;
      onClickCalls, clearCalls := 0, 0;
      itemView, dividerView, titleView, errorView, mainLayoutView := null, null, null, null, null;
      editView := NoEdit;
    }

    function ValueAsString(): string
      reads this
    {
      asString(value)
    }

    function IsOn(): bool
      reads this
    {
      isOnOf(value)
    }

    /** The edit view, when it is an edit text: the objects a text handler may change. */
    function EditFrame(): set<EditText>
      reads this
    {
      if editView.Edit? then {editView.edit} else {}
    }

    method SetValue(v: Option<Value>)
      modifies this`value
      ensures value == v
    {
      value := v;
    }

    method Clear()
      modifies this`value, this`clearCalls
      ensures value == None && clearCalls == old(clearCalls) + 1
    {
      value := None;
      clearCalls := clearCalls + 1;
    }

    /** `onClick?.invoke()`. */
    method InvokeOnClick()
      modifies this`onClickCalls
      ensures onClickCalls == old(onClickCalls) + (if hasOnClick then 1 else 0)
    {
      if hasOnClick {
        onClickCalls := onClickCalls + 1;
      }
    }
  }

  /** The coordinator: looks elements up by tag and receives change notifications. */
  class FormBuilder {
    var elements: map<int, FormElement>
    /** Every onValueChanged call so far, with the element's state at the time. */
    ghost var log: seq<Notice>

    constructor (elements: map<int, FormElement>)
      ensures this.elements == elements && log == []
    {
      this.elements := elements;
      log := [];
    }

    /** getFormElement(tag): null when no element has that tag. */
    function GetFormElement(tag: int): (r: Option<FormElement>)
      reads this
      ensures r.Some? <==> tag in elements
      ensures r.Some? ==> r.value == elements[tag]
    {
      if tag in elements then Some(elements[tag]) else None
    }

    method OnValueChanged(e: FormElement)
      modifies this`log
      ensures log == old(log) + [Notice(e.tag, e.value, e.error)]
    {
      log := log + [Notice(e.tag, e.value, e.error)];
    }
  }
}
