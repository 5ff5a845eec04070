/**
 * The advanced-settings dialog. Each "change" button reads one number from an input box and
 * stores it only if it passes that field's rule; a rejected input leaves every field as it
 * was. The parse of the input text is a parameter: None when QString::toInt or toDouble fails.
 */
module FitSettingModel {
  import opened Wrappers
  import opened OptimizerTuning

  /** The rule of one field: the input parsed and passed the test, so it is stored. */
  function Accept<T>(input: Option<T>, test: T -> bool): (stored: Option<T>)
    ensures stored.Some? <==> input.Some? && test(input.value)
    ensures stored.Some? ==> stored == input
  {
    if input.None? || !test(input.value) then None else input
  }

  /** A batch size of zero passes, although the message asks for a positive one. */
  predicate BatchSizeOk(b: int) { b >= 0 }
  predicate WeightOk(w: real) { w >= 0.0 }
  predicate StepSizeOk(s: real) { s > 0.0 }
  predicate ToleranceOk(t: real) { t > 0.0 }
  predicate MaxOrderOk(m: int) { m > 0 }
  predicate MaxIterOk(m: int) { m > 0 }

  /** Every field holds a value its rule accepts. */
  predicate Accepted(s: OptimizerSetting) {
    BatchSizeOk(s.batchSize) && WeightOk(s.weight) && StepSizeOk(s.stepSize) &&
    ToleranceOk(s.tolerance) && MaxOrderOk(s.maxOrder) && MaxIterOk(s.maxIter)
  }

  /** The member initialisers of OptimizerSetting pass every rule of the dialog. */
  lemma DefaultsAccepted()
    ensures Accepted(DefaultSetting())
  {
  }

  /** The values the dialog's six text boxes show. */
  class FitSettingDialog {
    var setting: OptimizerSetting

    constructor(s: OptimizerSetting)
      ensures setting == s
    {
      setting := s;
    }

    /** on_changeBatchSize_clicked. */
    method ChangeBatchSize(input: Option<int>) returns (accepted: bool)
      modifies this
      ensures accepted <==> input.Some? && BatchSizeOk(input.value)
      ensures setting == if accepted then old(setting).(batchSize := input.value) else old(setting)
      ensures Accepted(old(setting)) ==> Accepted(setting)
    {
      var v := Accept(input, BatchSizeOk);
      if v.None? {
        return false;
      }
      setting := setting.(batchSize := v.value);
      return true;
    }

    /** on_changeWeight_clicked. */
    method ChangeWeight(input: Option<real>) returns (accepted: bool)
      modifies this
      ensures accepted <==> input.Some? && WeightOk(input.value)
      ensures setting == if accepted then old(setting).(weight := input.value) else old(setting)
      ensures Accepted(old(setting)) ==> Accepted(setting)
    {
      var v := Accept(input, WeightOk);
      if v.None? {
        return false;
      }
      setting := setting.(weight := v.value);
      return true;
    }

    /** on_changeStepSize_clicked. */
    method ChangeStepSize(input: Option<real>) returns (accepted: bool)
      modifies this
      ensures accepted <==> input.Some? && StepSizeOk(input.value)
      ensures setting == if accepted then old(setting).(stepSize := input.value) else old(setting)
      ensures Accepted(old(setting)) ==> Accepted(setting)
    {
      var v := Accept(input, StepSizeOk);
      if v.None? {
        return false;
      }
      setting := setting.(stepSize := v.value);
      return true;
    }

    /** on_changeTolerance_clicked. */
    method ChangeTolerance(input: Option<real>) returns (accepted: bool)
      modifies this
      ensures accepted <==> input.Some? && ToleranceOk(input.value)
      ensures setting == if accepted then old(setting).(tolerance := input.value) else old(setting)
      ensures Accepted(old(setting)) ==> Accepted(setting)
    {
      var v := Accept(input, ToleranceOk);
      if v.None? {
        return false;
      }
      setting := setting.(tolerance := v.value);
      return true;
    }

    /** on_changeMaxOrder_clicked. */
    method ChangeMaxOrder(input: Option<int>) returns (accepted: bool)
      modifies this
      ensures accepted <==> input.Some? && MaxOrderOk(input.value)
      ensures setting == if accepted then old(setting).(maxOrder := input.value) else old(setting)
      ensures Accepted(old(setting)) ==> Accepted(setting)
    {
      var v := Accept(input, MaxOrderOk);
      if v.None? {
        return false;
      }
      setting := setting.(maxOrder := v.value);
      return true;
    }

    /** on_changeMaxIter_clicked. */
    method ChangeMaxIter(input: Option<int>) returns (accepted: bool)
      modifies this
      ensures accepted <==> input.Some? && MaxIterOk(input.value)
      ensures setting == if accepted then old(setting).(maxIter := input.value) else old(setting)
      ensures Accepted(old(setting)) ==> Accepted(setting)
    {
      var v := Accept(input, MaxIterOk);
      if v.None? {
        return false;
      }
      setting := setting.(maxIter := v.value);
      return true;
    }
  }
}
