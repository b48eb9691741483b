# KFormMaster view binders in Dafny

KFormMaster renders a declarative list of form elements on Android widgets.
This project models its view binders: the code that wires one form element
to one widget and turns widget callbacks into committed values. The model
covers the shared binder (`BaseFormViewBinder`) and the slider, segmented
choice, switch and token binders.

A binder does three things when a widget calls it back. It decides whether
the event commits a value: the change gate, the `holdup` latch of the
segmented group, or the confirmation prompt. It quantises the raw input
(slider). A commit clears the element's `error`, stores the value, and
calls the coordinator's `onValueChanged` once.

Modules, one per source file or shared concept:

- `Values`: `Option` (Kotlin's nullable) and `Value`, the committed values (text, integer, flag, token list).
- `Widgets`: the Android widgets, reduced to the fields the binders read or write. These are `View`, `EditText` (with its `ClearableEditText` flag), `SeekBar`, `SegmentedGroup` with its `holdup` latch, and `Switch`. `EditRef` is the element's `editView`: the source's `as?` casts become matches on it.
- `Elements`: `FormElement`, a class with the fields the binders change, and `FormBuilder`, the coordinator. `FormBuilder` keeps a ghost log of every `onValueChanged` call, each entry a snapshot of the element's tag, value and error. "Notified exactly once" means the log grows by exactly one entry. "The error is cleared before the notification" means the logged error is `None`.
- `BaseBinder`: `baseSetup` and the clear, click (confirmation gate), focus, text-watcher and editor-action listeners.
- `Quantizer`: the pure arithmetic of `updateSeekValue`, with its lemmas.
- `Decimal`: Kotlin's `Int.toString`, which the slider readout shows, and its inverse.
- `SliderBinder`, `SegmentedBinder`, `SwitchBinder`, `TokenBinder`: one class per binder. Each holds the coordinator as `formBuilder`. Each has a `Bind` method for the bind lambda and one method per listener body.

Each listener body is a method. An event from the environment is a call to that method. A user's answer to the confirmation prompt is a parameter. `dialog.show()` is an out-parameter.

Arithmetic is exact. The source rounds Double quotients of integers with
`roundToInt`, which rounds ties towards positive infinity. The model rounds
the exact rational: `RoundHalfUp(n, d) = floor(n/d + 1/2)`. Kotlin's `%` on
Double is a truncated remainder with the dividend's sign (`TruncRem`). Dafny's
`%` is Euclidean. The lemma `SnapIndependentOfOffset` shows this difference
does not affect the snapped value, because both offsets lie in the same
residue class.

Behaviours of the code worth noting:

- At bind, the segmented binder clears `holdup` when the value is absent or not one of the options. It does not set it. So the next callback commits; it is not suppressed. When `options` is null, `options?.contains(value) == false` is false, and the latch keeps its state.
- The confirmation gate has three outcomes. It opens the editor when `confirmEdit` is off or `valueAsString` is empty. It shows the prompt when the value is present. Otherwise it does nothing. The third case cannot happen when an absent value renders as `""`. `OnClick` proves this under that assumption.
- The focus-lost commit is installed whatever `updateOnFocusChange` says. Only the text watcher depends on it.
- The editor's "Done" action commits even when the text is unchanged. The change gate does not apply to it.
- The token binder does not route any click through the confirmation gate. A row click only focuses the edit text.

## Model

| member | source | states |
|---|---|---|
| `BaseBinder.BaseSetup` | form/src/main/java/com/thejuki/kformmaster/view/BaseFormViewBinder.kt:33-42 | the item view is stored, each supplied reference overwrites its field, unsupplied ones and every other field (value, error included) stay as they were |
| `BaseBinder.SetClearableListener` | form/src/main/java/com/thejuki/kformmaster/view/BaseFormViewBinder.kt:47-58 | on a ClearableEditText `displayClear` becomes `clearable` and the clear listener is installed, and no other field changes; on anything else nothing changes |
| `BaseBinder.OnClearText` | form/src/main/java/com/thejuki/kformmaster/view/BaseFormViewBinder.kt:52-54 | the clear action calls the element's own clear() exactly once, leaving the value absent |
| `BaseBinder.SetOnClickListener` | form/src/main/java/com/thejuki/kformmaster/view/BaseFormViewBinder.kt:63-87 | the edit text becomes unfocusable; row and edit text both get the confirmation-gate click; nothing else changes |
| `BaseBinder.OnClick` | form/src/main/java/com/thejuki/kformmaster/view/BaseFormViewBinder.kt:67-83 | no prompt and the editor opens when confirmEdit is off or valueAsString is empty; with confirmEdit, a non-empty text and a present value, a prompt whose title and message fall back to the defaults, and the editor opens iff it is accepted; otherwise nothing; the element never changes |
| `BaseBinder.SetOnFocusChangeListener` | form/src/main/java/com/thejuki/kformmaster/view/BaseFormViewBinder.kt:92-103 | an edit text gets the focus listener; nothing else changes |
| `BaseBinder.OnFocusChange` | form/src/main/java/com/thejuki/kformmaster/view/BaseFormViewBinder.kt:103-123 | focus gained: value dropped iff clearOnFocus, error and log untouched; focus lost: commits iff the edit text differs from valueAsString (error cleared, value from the text, one notice with no error), else nothing changes; the title is emphasised exactly while focused, and nothing else of it changes |
| `BaseBinder.AddTextChangedListener` | form/src/main/java/com/thejuki/kformmaster/view/BaseFormViewBinder.kt:129-151 | the text watcher is installed on an edit text iff updateOnFocusChange is off; nothing else changes |
| `BaseBinder.ShouldCommit` | form/src/main/java/com/thejuki/kformmaster/view/BaseFormViewBinder.kt:141 | the change gate: a widget text commits only when it differs from the element's valueAsString; used by OnFocusChange, OnTextChanged and the token watcher |
| `BaseBinder.OnTextChanged` | form/src/main/java/com/thejuki/kformmaster/view/BaseFormViewBinder.kt:134-146 | a text that differs from valueAsString commits (error cleared, value set, one notice); an equal text changes nothing and notifies nobody |
| `BaseBinder.TextChangedTwice` | form/src/main/java/com/thejuki/kformmaster/view/BaseFormViewBinder.kt:134-146 | the same text delivered twice notifies at most once, when the element renders the stored value as that text |
| `BaseBinder.SetOnEditorActionListener` | form/src/main/java/com/thejuki/kformmaster/view/BaseFormViewBinder.kt:156-157 | an edit text gets the editor-action listener; nothing else changes |
| `BaseBinder.EditTextString` | form/src/main/java/com/thejuki/kformmaster/view/BaseFormViewBinder.kt:160 | the text of the edit view when it is an edit text, and Kotlin's "null" for the null of a failed cast |
| `BaseBinder.OnEditorAction` | form/src/main/java/com/thejuki/kformmaster/view/BaseFormViewBinder.kt:157-164 | "Done" commits the edit text unconditionally (error cleared, value set, one notice); other actions change nothing; never consumes the event |
| `Elements.FormElement.SetValue` | form/src/main/java/com/thejuki/kformmaster/view/BaseFormViewBinder.kt:118 | setValue stores the given value and nothing else |
| `Elements.FormElement.Clear` | form/src/main/java/com/thejuki/kformmaster/view/BaseFormViewBinder.kt:53 | clear() leaves the value absent and is counted |
| `Elements.FormElement.InvokeOnClick` | form/src/main/java/com/thejuki/kformmaster/view/FormSegmentedViewBinder.kt:63 | `onClick?.invoke()`: one invocation iff the element has an onClick |
| `Elements.FormBuilder.GetFormElement` | form/src/main/java/com/thejuki/kformmaster/view/FormTokenAutoCompleteViewBinder.kt:54 | lookup by tag: present iff an element has that tag, and then that element |
| `Elements.FormBuilder.OnValueChanged` | form/src/main/java/com/thejuki/kformmaster/view/BaseFormViewBinder.kt:119 | each call appends one snapshot of the element's tag, value and error to the log |
| `Quantizer.RoundHalfUp` | form/src/main/java/com/thejuki/kformmaster/view/FormSliderViewBinder.kt:83-84 | roundToInt of n/d: the integer r with r <= n/d + 1/2 < r + 1 |
| `Quantizer.TruncRem` | form/src/main/java/com/thejuki/kformmaster/view/FormSliderViewBinder.kt:89 | Double `%`: congruent to the dividend, of the dividend's sign, smaller than k in magnitude |
| `Quantizer.Clamp` | form/src/main/java/com/thejuki/kformmaster/view/FormSliderViewBinder.kt:97-101 | the result lies in [min, max] when min <= max, and a value already in range is kept |
| `Quantizer.StepSnap` | form/src/main/java/com/thejuki/kformmaster/view/FormSliderViewBinder.kt:82-85 | the pre-clamp value with steps: rounded step index times rounded stop distance plus min; its stops are StepStops |
| `Quantizer.SnapFrom` | form/src/main/java/com/thejuki/kformmaster/view/FormSliderViewBinder.kt:90-91 | the pre-clamp value with incrementBy for a given offset; SnapFromOnGrid and SnapFromNearest state what it is |
| `Quantizer.IncrementSnap` | form/src/main/java/com/thejuki/kformmaster/view/FormSliderViewBinder.kt:88-91 | SnapFrom with the truncated remainder of min as offset; IncrementSnapAlignedToMin states its alignment |
| `Quantizer.Quantize` | form/src/main/java/com/thejuki/kformmaster/view/FormSliderViewBinder.kt:80-101 | the committed value lies in [min, max] whenever min <= max |
| `Quantizer.PassThrough` | form/src/main/java/com/thejuki/kformmaster/view/FormSliderViewBinder.kt:93-101 | with neither steps nor incrementBy the raw value is only clamped, so an in-range value passes unchanged |
| `Quantizer.StepsTakePrecedence` | form/src/main/java/com/thejuki/kformmaster/view/FormSliderViewBinder.kt:80-87 | whenever steps is set, incrementBy has no effect |
| `Quantizer.StepIndexInRange` | form/src/main/java/com/thejuki/kformmaster/view/FormSliderViewBinder.kt:83 | for a raw value in [min, max] the step index is one of 0..steps |
| `Quantizer.StepStops` | form/src/main/java/com/thejuki/kformmaster/view/FormSliderViewBinder.kt:82-85 | the list of candidate stops has exactly steps + 1 entries |
| `Quantizer.StepOutputIsStop` | form/src/main/java/com/thejuki/kformmaster/view/FormSliderViewBinder.kt:80-101 | with steps = s every in-range raw value commits one of at most s + 1 stops |
| `Quantizer.SnapFromOnGrid` | form/src/main/java/com/thejuki/kformmaster/view/FormSliderViewBinder.kt:90-91 | the incrementBy snap is the offset plus a multiple of k |
| `Quantizer.SnapFromNearest` | form/src/main/java/com/thejuki/kformmaster/view/FormSliderViewBinder.kt:90-91 | the snap is within k/2 of the raw value, ties going up: raw - k/2 < snap <= raw + k/2 |
| `Quantizer.IncrementSnapAlignedToMin` | form/src/main/java/com/thejuki/kformmaster/view/FormSliderViewBinder.kt:88-91 | the pre-clamp value is congruent to min modulo incrementBy, for negative min too |
| `Quantizer.SnapIndependentOfOffset` | form/src/main/java/com/thejuki/kformmaster/view/FormSliderViewBinder.kt:89-91 | any two offsets in the same residue class give the same snapped value |
| `Quantizer.IncrementSnapEuclidean` | form/src/main/java/com/thejuki/kformmaster/view/FormSliderViewBinder.kt:89-91 | the truncated remainder of the source and Dafny's Euclidean `min % k` give the same snapped value |
| `Quantizer.StepsExample` | form/src/main/java/com/thejuki/kformmaster/view/FormSliderViewBinder.kt:82-85 | min 0, max 100, steps 4: raw 37 commits 25 |
| `Quantizer.IncrementExample` | form/src/main/java/com/thejuki/kformmaster/view/FormSliderViewBinder.kt:88-91 | min 2, max 22, incrementBy 5: raw 13 commits 12 |
| `Quantizer.NegativeMinExample` | form/src/main/java/com/thejuki/kformmaster/view/FormSliderViewBinder.kt:88-91 | min -7, incrementBy 5: the offset is -2 and raw -4 commits -2 |
| `Quantizer.StepsMayMissMax` | form/src/main/java/com/thejuki/kformmaster/view/FormSliderViewBinder.kt:84-85 | min 0, max 10, steps 3: the stop distance rounds to 3, so raw 10 commits 9 and max is never reached |
| `Quantizer.StepsNotIdempotent` | form/src/main/java/com/thejuki/kformmaster/view/FormSliderViewBinder.kt:80-107 | min 0, max 10, steps 7: raw 10 commits 7, and 7 fed back commits 5, so the written-back progress is not a fixed point |
| `Decimal.DigitChar` | form/src/main/java/com/thejuki/kformmaster/view/FormSliderViewBinder.kt:108 | one decimal digit character, whose code is '0' plus the digit |
| `Decimal.NatString` | form/src/main/java/com/thejuki/kformmaster/view/FormSliderViewBinder.kt:108 | the decimal text is non-empty, all digits, with no leading zero |
| `Decimal.NatStringRoundTrip` | form/src/main/java/com/thejuki/kformmaster/view/FormSliderViewBinder.kt:108 | reading back the decimal digits of n gives n |
| `Decimal.IntString` | form/src/main/java/com/thejuki/kformmaster/view/FormSliderViewBinder.kt:108 | Int.toString: non-empty, a leading minus sign exactly for a negative number, digits otherwise |
| `Decimal.IntStringRoundTrip` | form/src/main/java/com/thejuki/kformmaster/view/FormSliderViewBinder.kt:50 | reading back Int.toString of n gives n, negatives included |
| `Decimal.IntStringInjective` | form/src/main/java/com/thejuki/kformmaster/view/FormSliderViewBinder.kt:107-108 | equal readout texts mean equal committed values |
| `SliderBinder.SliderViewBinder.Bind` | form/src/main/java/com/thejuki/kformmaster/view/FormSliderViewBinder.kt:36-52 | references stored, the slider as edit view; an absent value becomes min; progress and readout show the value, max is set; the listener is installed; error and log untouched |
| `SliderBinder.SliderViewBinder.OnProgressChanged` | form/src/main/java/com/thejuki/kformmaster/view/FormSliderViewBinder.kt:53-55 | every progress callback, whatever fromUser says, commits Quantize of the progress as updateSeekValue does |
| `SliderBinder.SliderViewBinder.UpdateSeekValue` | form/src/main/java/com/thejuki/kformmaster/view/FormSliderViewBinder.kt:72-109 | error cleared, value set to Quantize(raw, min, max, steps, incrementBy), exactly one notice with no error, then progress and readout show that committed value |
| `SegmentedBinder.Choice` | form/src/main/java/com/thejuki/kformmaster/view/FormSegmentedViewBinder.kt:46-52 | a committed value is present iff the index is not negative and options exist; it is then `options[index]`, so always one of the options |
| `SegmentedBinder.CallbacksAlternate` | form/src/main/java/com/thejuki/kformmaster/view/FormSegmentedViewBinder.kt:43-57 | of n consecutive callbacks, ceil(n/2) commit from a clear latch and floor(n/2) from a set latch: commit and suppress alternate; CheckedChanges ties it to the callbacks |
| `SegmentedBinder.NotAnOption` | form/src/main/java/com/thejuki/kformmaster/view/FormSegmentedViewBinder.kt:39 | `options?.contains(value) == false`: holds only for present options that lack the value, never for null options |
| `SegmentedBinder.ResetsLatch` | form/src/main/java/com/thejuki/kformmaster/view/FormSegmentedViewBinder.kt:39 | the bind-time latch test: an absent value, or one that is not an option |
| `SegmentedBinder.SegmentedViewBinder.Bind` | form/src/main/java/com/thejuki/kformmaster/view/FormSegmentedViewBinder.kt:34-64 | references stored, the group as edit view; the latch is cleared iff the value is absent or not among present options, else kept; listener and row click installed; value, error and log untouched |
| `SegmentedBinder.SegmentedViewBinder.OnCheckedChanged` | form/src/main/java/com/thejuki/kformmaster/view/FormSegmentedViewBinder.kt:43-57 | the latch flips; from a clear latch: error cleared, value = Choice(options, index), one notice with no error; from a set latch: value, error and log unchanged |
| `SegmentedBinder.SegmentedViewBinder.EchoThenSelection` | form/src/main/java/com/thejuki/kformmaster/view/FormSegmentedViewBinder.kt:44-56 | a callback suppressed by a set latch followed by the user's selection notifies exactly once, with the selection |
| `SegmentedBinder.SegmentedViewBinder.CheckedChanges` | form/src/main/java/com/thejuki/kformmaster/view/FormSegmentedViewBinder.kt:43-57 | n consecutive callbacks leave the latch flipped n times and add CommitCount notices: ceil(n/2) from a clear latch, floor(n/2) from a set one |
| `SegmentedBinder.SegmentedViewBinder.OnRowClick` | form/src/main/java/com/thejuki/kformmaster/view/FormSegmentedViewBinder.kt:61-64 | the row click only invokes onClick; value, error and latch are untouched |
| `SwitchBinder.SwitchValue` | form/src/main/java/com/thejuki/kformmaster/view/FormSwitchViewBinder.kt:46-50 | the committed value is onValue or offValue, and when these differ it is onValue exactly for the checked state |
| `SwitchBinder.SwitchViewBinder.Bind` | form/src/main/java/com/thejuki/kformmaster/view/FormSwitchViewBinder.kt:35-57 | references stored, the switch as edit view; checked equals isOn(), set before any listener so nobody is notified; main layout stored; row toggle, checked listener and switch click installed; value and error untouched |
| `SwitchBinder.SwitchViewBinder.SetSwitchFocusEnabled` | form/src/main/java/com/thejuki/kformmaster/view/FormSwitchViewBinder.kt:68-75 | a click on the row is set to toggle the switch |
| `SwitchBinder.SwitchViewBinder.OnCheckedChanged` | form/src/main/java/com/thejuki/kformmaster/view/FormSwitchViewBinder.kt:44-52 | error cleared, value = onValue when checked and offValue when not, exactly one notice with no error |
| `SwitchBinder.SwitchViewBinder.OnRowClick` | form/src/main/java/com/thejuki/kformmaster/view/FormSwitchViewBinder.kt:69-74 | onClick invoked, checked negated, and with the listener installed the new state commits as a checked change |
| `SwitchBinder.SwitchViewBinder.RowClickTwice` | form/src/main/java/com/thejuki/kformmaster/view/FormSwitchViewBinder.kt:69-74 | two row clicks restore the checked state and the value for it, with two notices |
| `SwitchBinder.SwitchViewBinder.OnSwitchClick` | form/src/main/java/com/thejuki/kformmaster/view/FormSwitchViewBinder.kt:54-57 | a click on the switch only invokes onClick; the value is not set directly |
| `TokenBinder.TokenViewBinder.Bind` | form/src/main/java/com/thejuki/kformmaster/view/FormTokenAutoCompleteViewBinder.kt:29-48 | title, error and row stored, other references kept; text = valueAsString and hint = mHint or "" before the watcher exists, so nobody is notified; row click, focus listener and watcher installed; no other field of the edit text changes |
| `TokenBinder.TokenViewBinder.OnFocusChange` | form/src/main/java/com/thejuki/kformmaster/view/FormTokenAutoCompleteViewBinder.kt:38-46 | focus changes only the title emphasis, never the value or the error |
| `TokenBinder.TokenViewBinder.OnTextChanged` | form/src/main/java/com/thejuki/kformmaster/view/FormTokenAutoCompleteViewBinder.kt:51-66 | the element re-fetched by tag commits iff the text differs from its valueAsString: value set, error cleared on element and error view, one notice; otherwise nothing changes |
| `TokenBinder.TokenViewBinder.HideError` | form/src/main/java/com/thejuki/kformmaster/view/FormTokenAutoCompleteViewBinder.kt:62 | `setError(view, null)` hides the error view |

## Left out

- Android plumbing is not modelled: `ViewBinder`, `finder.find`, `ViewStateProvider`/`ViewState` ids, and RecyclerView recycling. A recycled widget keeps the listeners of its earlier binding, and its watchers accumulate. The model keeps one flag per listener and runs each handler for the element it was bound to.
- Styling is not modelled: title colour state lists and colour values, `segmented.setProperties`, and the look of the AlertDialog. Title emphasis on focus is kept as a flag.
- The prompt is modal and answers with exactly one callback. The model takes the answer as a parameter of `OnClick`. Showing the editor dialog is the out-parameter `editorShown`.
- The soft keyboard, `requestFocus` and `setSelection` in `setEditTextFocusEnabled` are calls into the platform. The model only records that a row click focuses the editor.
- `onStartTrackingTouch` and `onStopTrackingTouch` have empty bodies (the stop handler's call is commented out). There is nothing to model.
- `Quantizer.Quantize`: requires `steps > 0` and `max > min` when steps is set, and `incrementBy > 0` when only it is set. On the excluded inputs the source does the following, and the model does not say so:
  - steps = 0 with max > min: the stop distance `(max - min) / 0.0` is +Infinity, and `roundToInt` saturates it to Int.MAX_VALUE. The step index is 0, so `min` is committed and nothing throws.
  - max == min with steps set: when raw == min the step index is 0/0 = NaN and `roundToInt` throws. Otherwise the index saturates, the stop distance rounds to 0, and `min` is committed. With steps = 0 the index is ±Infinity times 0 = NaN, which throws.
  - Negative steps, or max < min with steps set: nothing divides by zero. The source computes a snapped value in Int arithmetic and clamps it, and with max < min the clamp cannot bring it into a range.
  - incrementBy = 0: `min % 0` is NaN and `roundToInt` always throws. A negative incrementBy divides by a negative step and is not modelled.
- `SliderBinder.SliderViewBinder.UpdateSeekValue`: the same conditions as `Quantize`. Double precision and the saturation of `roundToInt` for results outside the Int range are not modelled.
- `SliderBinder.SliderViewBinder.Bind`: requires the value to be absent or an integer, since `model.value as Int` throws otherwise. Android clamps progress against the SeekBar's old max (progress is set before max). The model assigns progress exactly.
- `SeekBar.setProgress` may fire `onProgressChanged` again. Whether it does is widget-internal. In the model such a callback is another `OnProgressChanged` call. With steps set that second call may move the value again (`StepsNotIdempotent`).
- The initial `holdup` of a `SegmentedGroup` and what `reInitGroup()` checks are widget and element internals. The model leaves both to the caller. A programmatic check is an `OnCheckedChanged` call.
- `SegmentedBinder.SegmentedViewBinder.OnCheckedChanged`: requires the index to be within a present options list when the latch is clear, since `options?.get(index)` throws past its end. With the latch set the index is not read, and any index is accepted. `CheckedChanges` asks the same only of the callbacks that commit.
- `TokenBinder.TokenViewBinder.OnTextChanged`: requires an element with the model's tag, since `formElement!!` throws otherwise.
- The element model files are not part of this model. `valueAsString`, `setValue` of a text and `isOn()` are functions each element is built with. `setValue` of a value is plain assignment. `clear()` leaves the value absent. `setError(view, null)` hides the view. Observers that `setValue` may notify are not modelled.
- `onValueChanged` triggers validation and updates other elements; neither is modelled. The coordinator only records the notification. So a value re-read right after it, as the slider does, is the value just committed.
- `BaseBinder.SetOnClickListener`: focusability and the click listener are tracked only when the edit view is an edit text. Other edit views have no such fields in the model.
- `BaseBinder.SetOnFocusChangeListener`: installation is tracked only on edit texts, for the same reason. The title colour list it sets up is styling.
- `SwitchBinder.SwitchViewBinder.OnRowClick`: a switch notifies its checked listener when its state changes. This is how Android's `CompoundButton.setChecked` behaves. It is modelled, not verified.
- Element values of any Kotlin type become the `Value` datatype: text, integer, flag and token list.
