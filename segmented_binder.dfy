/**
 * FormSegmentedViewBinder: binds a segmented choice to a SegmentedGroup.
 * The group's one-bit `holdup` latch flips on every checked-change
 * callback; only a callback that finds it clear commits.
 */
module SegmentedBinder {
  import opened Values
  import opened Widgets
  import opened Elements
  import opened BaseBinder

  /** `options?.contains(value) == false`: false when options is null. */
  predicate NotAnOption(options: Option<seq<Value>>, value: Value)
  {
    options.Some? && value !in options.value
  }

  /** The bind-time latch reset applies when the value is absent or not one of the options. */
  predicate ResetsLatch(e: FormElement)
    reads e
  {
    e.value.None? || NotAnOption(e.options, e.value.value)
  }

  /**
   * `options?.get(index)` is defined: no index past the end of a present
   * options list. Only a committing callback reads the index.
   */
  predicate ValidIndex(options: Option<seq<Value>>, index: int)
  {
    index >= 0 && options.Some? ==> index < |options.value|
  }

  /** The value a callback commits for the checked index. */
  function Choice(options: Option<seq<Value>>, index: int): (r: Option<Value>)
    requires ValidIndex(options, index)
    ensures r.Some? <==> index >= 0 && options.Some?
    ensures r.Some? ==> r.value in options.value && r.value == options.value[index]
  {
    if index < 0 then None
    else if options.None? then None
    else Some(options.value[index])
  }

  /** A callback commits exactly when it finds the latch clear. */
  predicate Commits(holdup: bool)
  {
    !holdup
  }

  /** The latch as the j-th of consecutive callbacks finds it, when the first finds it at `holdup`. */
  function LatchAt(holdup: bool, j: nat): bool
  {
    if j % 2 == 0 then holdup else !holdup
  }

  /** How many of n consecutive callbacks commit when the first one finds the latch at `holdup`. */
  function CommitCount(holdup: bool, n: nat): nat
    decreases n
  {
    if n == 0 then 0 else (if Commits(holdup) then 1 else 0) + CommitCount(!holdup, n - 1)
  }

  /** Consecutive callbacks alternate between committing and being suppressed. */
  lemma {:induction false} CallbacksAlternate(holdup: bool, n: nat)
    ensures CommitCount(holdup, n) == if holdup then n / 2 else (n + 1) / 2
    decreases n
  {
    if n > 0 {
      CallbacksAlternate(!holdup, n - 1);
    }
  }

  class SegmentedViewBinder {
    const formBuilder: FormBuilder

    constructor (formBuilder: FormBuilder)
      ensures this.formBuilder == formBuilder
    {
      this.formBuilder := formBuilder;
    }

    /**
     * The bind lambda: base set-up with the group as edit view, the latch
     * reset for an absent or foreign value, the checked-change listener and
     * the row click. reInitGroup, which may check a segment and so fire the
     * listener, is the environment's: it is a later OnCheckedChanged call.
     */
    method Bind(model: FormElement, itemView: View, dividerView: View?, titleView: View?, errorView: View?,
                mainLayout: View?, segmented: SegmentedGroup)
      modifies model`itemView, model`dividerView, model`titleView, model`errorView, model`mainLayoutView,
               model`editView, segmented, itemView`onClick
      ensures model.itemView == itemView && model.dividerView == dividerView && model.titleView == titleView
      ensures model.errorView == errorView && model.mainLayoutView == mainLayout
      ensures model.editView == Segments(segmented)
      ensures segmented.holdup == if ResetsLatch(model) then false else old(segmented.holdup)
      ensures segmented.listener && itemView.onClick == InvokeOnClick
      ensures model.value == old(model.value) && model.error == old(model.error)
      ensures formBuilder.log == old(formBuilder.log)
    {
      BaseSetup(model, itemView, Parts(Some(dividerView), Some(titleView), Some(errorView), Some(mainLayout),
                                       Some(Segments(segmented))));
      if model.value == None || NotAnOption(model.options, model.value.value) {
        segmented.holdup := false;
      }
      segmented.listener := true;
      itemView.onClick := InvokeOnClick;
    }

    /**
     * The checked-change listener; `index` is the position of the checked
     * button in the group, -1 when none. With the latch clear: set it, clear
     * the error, commit the choice, notify once. With the latch set: only
     * clear it.
     */
    method OnCheckedChanged(model: FormElement, segmented: SegmentedGroup, index: int)
      requires Commits(segmented.holdup) ==> ValidIndex(model.options, index)
      modifies segmented`holdup, model`value, model`error, formBuilder`log
      ensures segmented.holdup == !old(segmented.holdup)
      ensures Commits(old(segmented.holdup)) ==>
        && model.error == None
        && model.value == Choice(model.options, index)
        && formBuilder.log == old(formBuilder.log) + [Notice(model.tag, model.value, None)]
      ensures !Commits(old(segmented.holdup)) ==>
        model.value == old(model.value) && model.error == old(model.error) && formBuilder.log == old(formBuilder.log)
      ensures |formBuilder.log| == |old(formBuilder.log)| + CommitCount(old(segmented.holdup), 1)
    {
      if !segmented.holdup {
        segmented.holdup := true;
        model.error := None;
        if index < 0 {
          model.SetValue(None);
        } else {
          model.SetValue(if model.options.Some? then Some(model.options.value[index]) else None);
        }
        formBuilder.OnValueChanged(model);
      } else {
        segmented.holdup := false;
      }
    }

    /**
     * A programmatic check that the latch suppresses: when the group has set
     * its latch before checking a button itself, the echo notifies nobody,
     * and the user's next selection commits.
     */
    method EchoThenSelection(model: FormElement, segmented: SegmentedGroup, echoIndex: int, index: int)
      requires segmented.holdup
      requires ValidIndex(model.options, index)
      modifies segmented`holdup, model`value, model`error, formBuilder`log
      ensures model.error == None && model.value == Choice(model.options, index)
      ensures formBuilder.log == old(formBuilder.log) + [Notice(model.tag, Choice(model.options, index), None)]
      ensures segmented.holdup
    {
      OnCheckedChanged(model, segmented, echoIndex);
      OnCheckedChanged(model, segmented, index);
    }

    /**
     * n consecutive checked-change callbacks, the j-th reporting
     * `indices[j]`: the latch alternates, and the log grows by
     * CommitCount, i.e. by ceil(n/2) from a clear latch and floor(n/2) from a set one.
     */
    method CheckedChanges(model: FormElement, segmented: SegmentedGroup, indices: seq<int>)
      requires forall j :: 0 <= j < |indices| && Commits(LatchAt(segmented.holdup, j)) ==>
        ValidIndex(model.options, indices[j])
      modifies segmented`holdup, model`value, model`error, formBuilder`log
      ensures segmented.holdup == LatchAt(old(segmented.holdup), |indices|)
      ensures |formBuilder.log| == |old(formBuilder.log)| + CommitCount(old(segmented.holdup), |indices|)
      ensures |formBuilder.log| == |old(formBuilder.log)| +
        if old(segmented.holdup) then |indices| / 2 else (|indices| + 1) / 2
    {
      ghost var h0 := segmented.holdup;
      for j := 0 to |indices|
        invariant segmented.holdup == LatchAt(h0, j)
        invariant |formBuilder.log| + CommitCount(segmented.holdup, |indices| - j) ==
          |old(formBuilder.log)| + CommitCount(h0, |indices|)
      {
        OnCheckedChanged(model, segmented, indices[j]);
      }
      CallbacksAlternate(h0, |indices|);
    }

    /** The row click only invokes the element's onClick. */
    method OnRowClick(model: FormElement)
      modifies model`onClickCalls
      ensures model.onClickCalls == old(model.onClickCalls) + (if model.hasOnClick then 1 else 0)
    {
      model.InvokeOnClick();
    }
  }
}
