/**
 * FormSliderViewBinder: binds a slider element to a SeekBar and a text
 * readout. Every progress callback quantises the raw progress, commits it
 * and shows the committed value on both widgets.
 */
module SliderBinder {
  import opened Values
  import opened Widgets
  import opened Elements
  import opened BaseBinder
  import opened Quantizer
  import opened Decimal

  /** A slider element's value is absent or an integer (the source casts it with `as Int`). */
  predicate HoldsNumber(e: FormElement)
    reads e
  {
    e.value.None? || e.value.value.Number?
  }

  class SliderViewBinder {
    const formBuilder: FormBuilder

    constructor (formBuilder: FormBuilder)
      ensures this.formBuilder == formBuilder
    {
      this.formBuilder := formBuilder;
    }

    /**
     * The bind lambda: base set-up, an absent value becomes min, the
     * SeekBar and the readout show the value, then the listener is
     * installed. Binding commits nothing and notifies nobody.
     */
    method Bind(model: FormElement, itemView: View, dividerView: View?, titleView: View?, errorView: View?,
                mainLayout: View?, slider: SeekBar, readout: View)
      requires HoldsNumber(model)
      modifies model`itemView, model`dividerView, model`titleView, model`errorView, model`mainLayoutView,
               model`editView, model`value, slider, readout`text
      ensures model.itemView == itemView && model.dividerView == dividerView && model.titleView == titleView
      ensures model.errorView == errorView && model.mainLayoutView == mainLayout
      ensures model.editView == Seek(slider)
      ensures model.value == if old(model.value).None? then Some(Number(model.min)) else old(model.value)
      ensures model.value.Some? && model.value.value.Number?
      ensures slider.progress == model.value.value.n && slider.max == model.max
      ensures readout.text == IntString(model.value.value.n)
      ensures slider.listener
      ensures model.error == old(model.error) && formBuilder.log == old(formBuilder.log)
    {
      BaseSetup(model, itemView, AllParts(dividerView, titleView, errorView, mainLayout));
      model.editView := Seek(slider);
      if model.value == None {
        model.value := Some(Number(model.min));
      }
      slider.progress := model.value.value.n;
      slider.max := model.max;
      readout.text := IntString(model.value.value.n);
      slider.listener := true;
    }

    /** onProgressChanged: every callback, from the user or not, goes through updateSeekValue. */
    method OnProgressChanged(model: FormElement, slider: SeekBar, progress: int, fromUser: bool, readout: View)
      requires WellFormed(model.min, model.max, model.steps, model.incrementBy)
      modifies model`value, model`error, formBuilder`log, slider`progress, readout`text
      ensures var q := Quantize(progress, model.min, model.max, model.steps, model.incrementBy);
        && model.error == None
        && model.value == Some(Number(q))
        && formBuilder.log == old(formBuilder.log) + [Notice(model.tag, Some(Number(q)), None)]
        && slider.progress == q
        && readout.text == IntString(q)
    {
      UpdateSeekValue(model, slider, progress, readout);
    }

    /**
     * updateSeekValue: snap to the grid (steps first, else incrementBy,
     * else pass through), clamp, clear the error, commit, notify once, and
     * show the committed value (never the raw one) on the SeekBar and the readout.
     */
    method UpdateSeekValue(model: FormElement, slider: SeekBar, sliderValue: int, readout: View)
      requires WellFormed(model.min, model.max, model.steps, model.incrementBy)
      modifies model`value, model`error, formBuilder`log, slider`progress, readout`text
      ensures var q := Quantize(sliderValue, model.min, model.max, model.steps, model.incrementBy);
        && model.error == None
        && model.value == Some(Number(q))
        && formBuilder.log == old(formBuilder.log) + [Notice(model.tag, Some(Number(q)), None)]
        && slider.progress == q
        && readout.text == IntString(q)
    {
      var roundedValue := 0;
      if model.steps.Some? {
        var steps := model.steps.value;
        var stepValue := RoundHalfUp((sliderValue - model.min) * steps, model.max - model.min);
        var stepAmount := RoundHalfUp(model.max - model.min, steps);
        roundedValue := stepValue * stepAmount + model.min;
      } else if model.incrementBy.Some? {
        var k := model.incrementBy.value;
        var offset := TruncRem(model.min, k);
        var stepValue := RoundHalfUp(sliderValue - offset, k);
        roundedValue := stepValue * k + offset;
      } else {
        roundedValue := sliderValue;
      }

      if roundedValue < model.min {
        roundedValue := model.min;
      } else if roundedValue > model.max {
        roundedValue := model.max;
      }

      model.error := None;
      model.SetValue(Some(Number(roundedValue)));
      formBuilder.OnValueChanged(model);

      slider.progress := model.value.value.n;
      readout.text := IntString(model.value.value.n);
    }
  }
}
