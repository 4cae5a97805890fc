/**
 * The handle adapter of CNTKLibraryC.cpp: the entry points that check their
 * arguments in a fixed order, report the first failing check as a status, and
 * only when every check passes pre-set their outputs and hand the work to the
 * evaluation engine. The engine is not modelled: each call to it is given as
 * the Outcome it has.
 */
module HandleAdapter {
  import opened Header
  import opened StatusTranslator

  datatype Option<T> = None | Some(value: T)

  const InvalidHandleMessage := "Invalid model handle"
  /** The common tail of every null-pointer message. */
  const NullTail := " is not allowed to be null"
  /** Used for a null `handle` in CNTK_LoadModel and, misnamed, for a null `cloned` in CNTK_CloneModel. */
  const HandleNullMessage := "'handle' paramter" + NullTail
  const ModelFilePathNullMessage := "'modelFilePath' parameter" + NullTail
  const DeviceNullMessage := "'device' parameter" + NullTail
  const InputsNullMessage := "'inputs' parameter" + NullTail
  const NumInputsNullMessage := "'numInputs' parameter" + NullTail
  const OutputsNullMessage := "'outputs' parameter" + NullTail
  const NumOutputsNullMessage := "'numOutputs' parameter" + NullTail

  /** One argument check of an entry point: whether it passes, and what it reports when it does not. */
  datatype Check = Check(passes: bool, failure: Status)

  /** A required pointer must not be null; a null one is reported as a null-pointer error with the given message. */
  function NotNull(p: Address, message: string): (c: Check)
  {
    Check(p != Null, StatusOf(NullPointer, message))
  }

  /**
   * The model must not be the sentinel handle; the sentinel is reported with
   * the sentinel itself as the code and the invalid-handle message.
   */
  function ValidHandle(model: Address): (c: Check)
  {
    Check(model != InvalidModelHandle, StatusOf(InvalidModelHandle, InvalidHandleMessage))
  }

  /**
   * Run a sequence of early-return checks: the first one that fails decides
   * the status; None means every check passed.
   */
  function FirstFailure(checks: seq<Check>): (r: Option<Status>)
    ensures r.None? <==> forall i :: 0 <= i < |checks| ==> checks[i].passes
    ensures r.Some? ==>
      exists i :: 0 <= i < |checks| && !checks[i].passes && r.value == checks[i].failure &&
        forall j :: 0 <= j < i ==> checks[j].passes
  {
    if checks == [] then None
    else if !checks[0].passes then Some(checks[0].failure)
    else
      var r := FirstFailure(checks[1..]);
      assert forall i :: 1 <= i < |checks| ==> checks[i] == checks[1..][i - 1];
      r
  }

  /** The checks after a passing one decide alone; a failing first check decides at once. */
  lemma FirstFailureStep(first: Check, rest: seq<Check>)
    ensures FirstFailure([first] + rest) == if first.passes then FirstFailure(rest) else Some(first.failure)
  {
  }

  /** FirstFailure unrolled over three checks. */
  lemma FirstFailureOfThree(a: Check, b: Check, c: Check)
    ensures FirstFailure([a, b, c]) ==
      if !a.passes then Some(a.failure) else if !b.passes then Some(b.failure)
      else if !c.passes then Some(c.failure) else None
  {
    FirstFailureStep(a, [b, c]);
    FirstFailureStep(b, [c]);
    FirstFailureStep(c, []);
    assert [a] + [b, c] == [a, b, c] && [b] + [c] == [b, c] && [c] + [] == [c];
  }

  /** FirstFailure unrolled over two checks. */
  lemma FirstFailureOfTwo(a: Check, b: Check)
    ensures FirstFailure([a, b]) ==
      if !a.passes then Some(a.failure) else if !b.passes then Some(b.failure) else None
  {
  }

  /** What a call of an entry point that only reports a status did. */
  datatype Reply = Reply(status: Status, engineCalled: bool)

  /** Report the first failing check, or call the engine through ExceptionCatcher::Call. */
  function Forward<T>(failure: Option<Status>, engine: Outcome<T>): (r: Reply)
  {
    match failure
    case Some(s) => Reply(s, false)
    case None => Reply(Call(engine), true)
  }

  // ---- CNTK_LoadModel ----

  /**
   * The checks of CNTK_LoadModel, in the order the source makes them: `handle`
   * first, then `modelFilePath`, then `device` (not the declaration order).
   */
  function LoadModelValidation(modelFilePath: Address, device: Address, handle: HandleSlot?): (r: Option<Status>)
    ensures r.None? <==> handle != null && modelFilePath != Null && device != Null
    ensures handle == null ==> r == Some(StatusOf(NullPointer, HandleNullMessage))
    ensures handle != null && modelFilePath == Null ==>
      r == Some(StatusOf(NullPointer, ModelFilePathNullMessage))
    ensures handle != null && modelFilePath != Null && device == Null ==>
      r == Some(StatusOf(NullPointer, DeviceNullMessage))
  {
    var handleCheck := Check(handle != null, StatusOf(NullPointer, HandleNullMessage));
    var pathCheck := NotNull(modelFilePath, ModelFilePathNullMessage);
    var deviceCheck := NotNull(device, DeviceNullMessage);
    FirstFailureOfThree(handleCheck, pathCheck, deviceCheck);
    FirstFailure([handleCheck, pathCheck, deviceCheck])
  }

  /** The caller's `CNTK_ModelHandle` variable that an out-parameter points at. */
  class HandleSlot {
    var handle: Address

    constructor (initial: Address)
      ensures handle == initial
    {
      handle := initial;
    }
  }

  /**
   * CNTK_LoadModel. `construct` is what constructing the evaluator from the
   * path and device does: it completes with the new evaluator's address, or
   * throws. A failed check returns its status, leaves `*handle` alone and never
   * reaches the engine; otherwise `*handle` is set to null before construction,
   * so a throwing construction leaves it null.
   */
  method LoadModel(modelFilePath: Address, device: Address, handle: HandleSlot?, construct: Outcome<Address>)
    returns (status: Status, ghost engineCalled: bool)
    modifies handle
    ensures engineCalled <==> LoadModelValidation(modelFilePath, device, handle).None?
    ensures !engineCalled ==> status == LoadModelValidation(modelFilePath, device, handle).value
    ensures !engineCalled && handle != null ==> handle.handle == old(handle.handle)
    ensures engineCalled ==> status == Call(construct)
    ensures engineCalled ==> handle != null
    ensures engineCalled ==> handle.handle == if construct.Completes? then construct.value else Null
  {
    var failure := LoadModelValidation(modelFilePath, device, handle);
    if failure.Some? {
      return failure.value, false;
    }
    handle.handle := Null;
    engineCalled := true;
    if construct.Completes? {
      handle.handle := construct.value;
    }
    status := Call(construct);
  }

  // ---- CNTK_CloneModel ----

  /** The checks of CNTK_CloneModel: the model handle, then `cloned`. */
  function CloneModelValidation(model: Address, cloned: HandleSlot?): (r: Option<Status>)
    ensures r.None? <==> model != InvalidModelHandle && cloned != null
    ensures model == InvalidModelHandle ==> r == Some(StatusOf(InvalidModelHandle, InvalidHandleMessage))
    ensures model != InvalidModelHandle && cloned == null ==> r == Some(StatusOf(NullPointer, HandleNullMessage))
  {
    var clonedCheck := Check(cloned != null, StatusOf(NullPointer, HandleNullMessage));
    FirstFailureOfTwo(ValidHandle(model), clonedCheck);
    FirstFailure([ValidHandle(model), clonedCheck])
  }

  /**
   * CNTK_CloneModel. `clone` is what the engine's Clone does with the cloning
   * method and flatten flag: it completes with the clone's address, or throws.
   * Unlike CNTK_LoadModel, `*cloned` is not pre-set: a throwing clone leaves it
   * as the caller had it.
   */
  method CloneModel(model: Address, cloned: HandleSlot?, clone: Outcome<Address>)
    returns (status: Status, ghost engineCalled: bool)
    modifies cloned
    ensures engineCalled <==> CloneModelValidation(model, cloned).None?
    ensures !engineCalled ==> status == CloneModelValidation(model, cloned).value
    ensures !engineCalled && cloned != null ==> cloned.handle == old(cloned.handle)
    ensures engineCalled ==> status == Call(clone)
    ensures engineCalled ==> cloned != null
    ensures engineCalled ==> cloned.handle == if clone.Completes? then clone.value else old(cloned.handle)
  {
    var failure := CloneModelValidation(model, cloned);
    if failure.Some? {
      return failure.value, false;
    }
    engineCalled := true;
    if clone.Completes? {
      cloned.handle := clone.value;
    }
    status := Call(clone);
  }

  // ---- CNTK_GetModelArgumentsInfo, CNTK_GetModelOutputsInfo ----

  /**
   * CNTK_GetModelArgumentsInfo: the model handle, then the `inputs` array
   * pointer, then the `numInputs` count pointer; `query` is what the engine's
   * GetModelArgumentsInfo does once all three pass.
   */
  function GetModelArgumentsInfo(model: Address, inputs: Address, numInputs: Address, query: Outcome<()>): (r: Reply)
    ensures r.engineCalled <==> model != InvalidModelHandle && inputs != Null && numInputs != Null
    ensures model == InvalidModelHandle ==> r.status == StatusOf(InvalidModelHandle, InvalidHandleMessage)
    ensures model != InvalidModelHandle && inputs == Null ==>
      r.status == StatusOf(NullPointer, InputsNullMessage)
    ensures model != InvalidModelHandle && inputs != Null && numInputs == Null ==>
      r.status == StatusOf(NullPointer, NumInputsNullMessage)
    ensures r.engineCalled ==> r.status == Call(query)
  {
    FirstFailureOfThree(ValidHandle(model), NotNull(inputs, InputsNullMessage), NotNull(numInputs, NumInputsNullMessage));
    Forward(FirstFailure([ValidHandle(model), NotNull(inputs, InputsNullMessage), NotNull(numInputs, NumInputsNullMessage)]), query)
  }

  /** CNTK_GetModelOutputsInfo: the same checks as for the arguments, naming `outputs` and `numOutputs`. */
  function GetModelOutputsInfo(model: Address, outputs: Address, numOutputs: Address, query: Outcome<()>): (r: Reply)
    ensures r.engineCalled <==> model != InvalidModelHandle && outputs != Null && numOutputs != Null
    ensures model == InvalidModelHandle ==> r.status == StatusOf(InvalidModelHandle, InvalidHandleMessage)
    ensures model != InvalidModelHandle && outputs == Null ==>
      r.status == StatusOf(NullPointer, OutputsNullMessage)
    ensures model != InvalidModelHandle && outputs != Null && numOutputs == Null ==>
      r.status == StatusOf(NullPointer, NumOutputsNullMessage)
    ensures r.engineCalled ==> r.status == Call(query)
  {
    FirstFailureOfThree(ValidHandle(model), NotNull(outputs, OutputsNullMessage), NotNull(numOutputs, NumOutputsNullMessage));
    Forward(FirstFailure([ValidHandle(model), NotNull(outputs, OutputsNullMessage), NotNull(numOutputs, NumOutputsNullMessage)]), query)
  }

  // ---- CNTK_EvaluateSequence ----

  /**
   * CNTK_EvaluateSequence: only the model handle is checked; none of the
   * array pointers is, so a null one reaches the engine, whose `evaluate`
   * outcome decides the status.
   */
  function EvaluateSequence(model: Address, inputs: Address, inputValues: Address, inputResetFlags: Address,
                            numInputs: nat, outputs: Address, numOutputs: nat, outputValues: Address,
                            evaluate: Outcome<()>): (r: Reply)
    ensures r.engineCalled <==> model != InvalidModelHandle
    ensures model == InvalidModelHandle ==> r.status == StatusOf(InvalidModelHandle, InvalidHandleMessage)
    ensures r.engineCalled ==> r.status == Call(evaluate)
  {
    Forward(FirstFailure([ValidHandle(model)]), evaluate)
  }

  // ---- Properties across the entry points ----

  /**
   * A check that fails hides the engine: whatever the engine would have done,
   * an entry point whose checks fail returns the same reply.
   */
  lemma RejectedCallIgnoresEngine(model: Address, p: Address, count: Address, e1: Outcome<()>, e2: Outcome<()>)
    requires model == InvalidModelHandle || p == Null || count == Null
    ensures GetModelArgumentsInfo(model, p, count, e1) == GetModelArgumentsInfo(model, p, count, e2)
    ensures GetModelOutputsInfo(model, p, count, e1) == GetModelOutputsInfo(model, p, count, e2)
    ensures !GetModelArgumentsInfo(model, p, count, e1).engineCalled
    ensures !GetModelOutputsInfo(model, p, count, e1).engineCalled
  {
  }

  /**
   * Every null-pointer message, "<parameter> is not allowed to be null", survives
   * the status record intact: it is shorter than 255 characters, so the copy
   * writes its terminator and a C reader of the description reads it back.
   */
  lemma NullMessageReadsBack(code: int, parameter: string)
    requires Nul !in parameter && |parameter| + |NullTail| < CopyCap
    ensures CString(StatusOf(code, parameter + NullTail).description) == parameter + NullTail
  {
    assert Nul !in NullTail;
    DescriptionReadsBack(code, parameter + NullTail);
  }

  /**
   * The invalid-handle record cannot be mistaken for success, even if the header
   * gave CNTK_INVALID_MODEL_HANDLE the value of CNTK_SUCCESS: its description
   * reads "Invalid model handle" where success leaves it empty.
   */
  lemma InvalidHandleIsNotSuccess()
    ensures StatusOf(InvalidModelHandle, InvalidHandleMessage) != SuccessStatus()
    ensures CString(StatusOf(InvalidModelHandle, InvalidHandleMessage).description) == InvalidHandleMessage
  {
    DescriptionReadsBack(InvalidModelHandle, InvalidHandleMessage);
  }
}
