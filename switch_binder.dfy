/**
 * FormSwitchViewBinder: binds an on/off element to a SwitchCompat. Every
 * checked change commits onValue or offValue; a click on the row toggles
 * the switch, which reaches the same listener.
 */
module SwitchBinder {
  import opened Values
  import opened Widgets
  import opened Elements
  import opened BaseBinder

  /**
   * The value a checked state commits. When onValue and offValue differ,
   * the committed value tells which state was committed.
   */
  function SwitchValue(e: FormElement, isChecked: bool): (r: Option<Value>)
    reads e
    ensures r == e.onValue || r == e.offValue
    ensures e.onValue != e.offValue ==> (r == e.onValue <==> isChecked)
  {
    if isChecked then e.onValue else e.offValue
  }

  class SwitchViewBinder {
    const formBuilder: FormBuilder

    constructor (formBuilder: FormBuilder)
      ensures this.formBuilder == formBuilder
    {
      this.formBuilder := formBuilder;
    }

    /**
     * The bind lambda: base set-up with the switch as edit view, the
     * checked state taken from isOn() before any listener is installed (so
     * binding notifies nobody), the main layout, then the row click, the
     * checked-change listener and the switch's own click. A recycled switch
     * may still carry the listener of an earlier binding, which the
     * `checked` assignment would reach; recycling is not modelled.
     */
    method Bind(model: FormElement, itemView: View, dividerView: View?, titleView: View?, errorView: View?,
                mainLayout: View?, switch: Switch)
      modifies model`itemView, model`dividerView, model`titleView, model`errorView, model`mainLayoutView,
               model`editView, switch, itemView`onClick
      ensures model.itemView == itemView && model.dividerView == dividerView && model.titleView == titleView
      ensures model.errorView == errorView && model.mainLayoutView == mainLayout
      ensures model.editView == Toggle(switch)
      ensures switch.checked == model.IsOn()
      ensures itemView.onClick == ToggleSwitch(switch)
      ensures switch.listener && switch.onClick == InvokeOnClick
      ensures model.value == old(model.value) && model.error == old(model.error)
      ensures formBuilder.log == old(formBuilder.log)
    {
      BaseSetup(model, itemView, Parts(Some(dividerView), Some(titleView), Some(errorView), None, Some(Toggle(switch))));
      switch.checked := model.IsOn();
      model.mainLayoutView := mainLayout;
      SetSwitchFocusEnabled(itemView, switch);
      switch.listener := true;
      switch.onClick := InvokeOnClick;
    }

    /** setSwitchFocusEnabled: a click on the row toggles the switch. */
    method SetSwitchFocusEnabled(itemView: View, switch: Switch)
      modifies itemView`onClick
      ensures itemView.onClick == ToggleSwitch(switch)
    {
      itemView.onClick := ToggleSwitch(switch);
    }

    /** The checked-change listener: clear the error, commit onValue or offValue, notify once. */
    method OnCheckedChanged(model: FormElement, isChecked: bool)
      modifies model`value, model`error, formBuilder`log
      ensures model.error == None
      ensures model.value == SwitchValue(model, isChecked)
      ensures formBuilder.log == old(formBuilder.log) + [Notice(model.tag, SwitchValue(model, isChecked), None)]
    {
      model.error := None;
      if isChecked {
        model.SetValue(model.onValue);
      } else {
        model.SetValue(model.offValue);
      }
      formBuilder.OnValueChanged(model);
    }

    /**
     * The row click: invoke onClick and negate the checked state. A switch
     * reports a change of its checked state to its listener, so once the
     * listener is installed the toggle commits like a tap on the switch.
     */
    method OnRowClick(model: FormElement, switch: Switch)
      modifies model`onClickCalls, switch`checked, model`value, model`error, formBuilder`log
      ensures model.onClickCalls == old(model.onClickCalls) + (if model.hasOnClick then 1 else 0)
      ensures switch.checked == !old(switch.checked)
      ensures switch.listener ==>
        && model.error == None
        && model.value == SwitchValue(model, switch.checked)
        && formBuilder.log == old(formBuilder.log) + [Notice(model.tag, SwitchValue(model, switch.checked), None)]
      ensures !switch.listener ==>
        model.value == old(model.value) && model.error == old(model.error) && formBuilder.log == old(formBuilder.log)
    {
      model.InvokeOnClick();
      switch.checked := !switch.checked;
      if switch.listener {
        OnCheckedChanged(model, switch.checked);
      }
    }

    /** Two row clicks restore the checked state; each notifies once, and the value ends as it was for that state. */
    method RowClickTwice(model: FormElement, switch: Switch)
      requires switch.listener
      modifies model`onClickCalls, switch`checked, model`value, model`error, formBuilder`log
      ensures switch.checked == old(switch.checked)
      ensures model.value == SwitchValue(model, old(switch.checked)) && model.error == None
      ensures formBuilder.log == old(formBuilder.log) +
        [Notice(model.tag, SwitchValue(model, !old(switch.checked)), None),
         Notice(model.tag, SwitchValue(model, old(switch.checked)), None)]
    {
      OnRowClick(model, switch);
      OnRowClick(model, switch);
    }

    /** A click on the switch itself only invokes onClick (the toggle reaches OnCheckedChanged). */
    method OnSwitchClick(model: FormElement)
      modifies model`onClickCalls
      ensures model.onClickCalls == old(model.onClickCalls) + (if model.hasOnClick then 1 else 0)
    {
      model.InvokeOnClick();
    }
  }
}
