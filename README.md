# CNTK C interface: status translation, argument checks and cleanup

This project models the C-callable boundary of the CNTK evaluation library
(`Source/CNTKv2LibraryDll/CNTKLibraryC.cpp`). It redirects calls from C to
C++. Its own behaviour is small and exact:

- **Status records.** `StatusCode` builds a `CNTK_StatusCode` from a code and a
  message. It copies `min((uint32_t)(size + 1), 255u)` characters of the
  terminated message into the value-initialised `description` buffer.
  `ExceptionCatcher::Call` runs a unit of work. Completion gives a success
  record. A `std::exception` gives an internal-error record that carries
  `what()`.
- **Argument checks.** Each entry point runs an ordered list of early-return
  checks: the sentinel model handle, then null pointers, where present.
  `CNTK_LoadModel` has no handle check, and `CNTK_EvaluateSequence` has no
  null-pointer checks. The first failing check
  decides the status. Only when every check passes does the entry point pre-set
  its output (`CNTK_LoadModel` only) and call the evaluation engine through
  `ExceptionCatcher::Call`.
- **Cleanup.** `CNTK_CleanShape`, `CNTK_CleanValue` and `CNTK_CleanVariable`
  change caller-owned structs in place. They release the owned buffers and set
  the size fields to 0, but the pointer fields keep the released addresses.
  `CNTK_ReleaseModel` and `CNTK_ReleaseArray` are plain deletes.

Files:

- `header.dfy` (module `Header`) holds the constants of `CNTKLibraryC.h`, which
  is not part of this model. The status codes, `CNTK_INVALID_MODEL_HANDLE` and
  the capacity of `description` are declared without values. No proof depends
  on them, or on whether two of them differ. The capacity is only known to be at
  least 255, since the copy writes that many characters.
- `status.dfy` (module `StatusTranslator`) has the status record, the copy
  (`StatusCode`, an imperative loop over an array, proved equal to `StatusOf`)
  and `Call`.
- `adapter.dfy` (module `HandleAdapter`) has the checks of the five entry
  points. `LoadModel` and `CloneModel` are methods that write through the
  out-parameter. The other three are functions. The engine is a parameter of
  type `Outcome`: it completes, with a value where one is stored, or throws
  with a `what()` text. A ghost out-parameter or a `Reply` field records
  whether the engine was reached.
- `cleanup.dfy` (module `Cleanup`) has `Shape`, `Value` and `Variable` as
  classes, and an `Allocator` whose ghost log records every non-null address
  handed to `delete`/`delete[]`. With the log, the model can state null-safety,
  release order and the double-free hazard.

Notes on what the code does:

- The record is value-initialised (`CNTK_StatusCode result { code }`), so every
  character past the copy is a terminator. The copy itself writes no
  terminator for messages of 255 characters or more. Such a description is
  terminated only if the declared capacity exceeds 255
  (`DescriptionTerminated`). In that case a 300-character message reads back
  as 255 visible characters plus a terminator, not 254
  (`ThreeHundredCharacterMessage`). With a capacity of exactly 255, the
  description holds no terminator at all.
- The copy length is computed in `uint32_t`. A message of 2^32 - 1 characters
  makes `size + 1` wrap to 0, and nothing is copied
  (`WrappedLengthCopiesNothing`).
- `CNTK_LoadModel` checks `handle` before `modelFilePath` and `device`, which is
  not the declaration order. Only `CNTK_LoadModel` pre-sets its output, and it
  sets it to null, not to the sentinel handle. `CNTK_CloneModel` leaves
  `*cloned` as the caller had it when the clone throws.
- An invalid handle puts `CNTK_INVALID_MODEL_HANDLE` itself into the code
  field. The record still differs from the success record through its
  description (`InvalidHandleIsNotSuccess`).
- The messages are kept as written, including "paramter" for a null `handle`.
  A null `cloned` in `CNTK_CloneModel` is also reported as `'handle'`.
- `CNTK_EvaluateSequence` checks only the handle. Null array pointers reach the
  engine.

## Model

| member | source | states |
|---|---|---|
| StatusTranslator.CopyLength | Source/CNTKv2LibraryDll/CNTKLibraryC.cpp:27 | the copy length never exceeds 255 or the terminated message's length, and below the 32-bit wrap it is exactly min(size + 1, 255) |
| StatusTranslator.StatusOf | Source/CNTKv2LibraryDll/CNTKLibraryC.cpp:23-30 | the record has the given code. Its description has the declared capacity, holds the first CopyLength characters of the terminated message, and is a terminator everywhere else, in particular at and past index 255 |
| StatusTranslator.StatusCode | Source/CNTKv2LibraryDll/CNTKLibraryC.cpp:23-30 | copying into the zero-initialised array gives exactly the record StatusOf describes |
| StatusTranslator.ShortMessageCopiedWhole | Source/CNTKv2LibraryDll/CNTKLibraryC.cpp:27-28 | a message of at most 254 characters lands whole in the description, followed by its terminator |
| StatusTranslator.LongMessageTruncated | Source/CNTKv2LibraryDll/CNTKLibraryC.cpp:27-28 | a message of 255 or more characters (below the wrap) contributes only its first 255 characters, and for a terminator-free message no terminator is among them |
| StatusTranslator.DescriptionReadsBack | Source/CNTKv2LibraryDll/CNTKLibraryC.cpp:25-29 | round trip: a read of the description bounded by the buffer gives the terminator-free message cut to 255 characters |
| StatusTranslator.DescriptionTerminated | Source/CNTKv2LibraryDll/CNTKLibraryC.cpp:25-29 | the description holds a terminator exactly when the message is shorter than 255 characters or the declared capacity exceeds 255. When it does, the first terminator directly follows the truncated message, so an unbounded C read stops inside the record |
| StatusTranslator.ThreeHundredCharacterMessage | Source/CNTKv2LibraryDll/CNTKLibraryC.cpp:25-28 | a 300-character message reads back, bounded by the buffer, as exactly 255 characters. The description is terminated exactly when the declared capacity exceeds 255 |
| StatusTranslator.WrappedLengthCopiesNothing | Source/CNTKv2LibraryDll/CNTKLibraryC.cpp:27 | a message of 2^32 - 1 characters wraps the uint32 length to 0 and reads back empty |
| StatusTranslator.SuccessStatus | Source/CNTKv2LibraryDll/CNTKLibraryC.cpp:40 | the success record has code CNTK_SUCCESS and an empty description |
| StatusTranslator.Call | Source/CNTKv2LibraryDll/CNTKLibraryC.cpp:35-46 | a completed action gives code CNTK_SUCCESS with an empty description. A thrown exception gives code CNTK_ERROR_INTERNAL_ERROR, and its description, read bounded by the buffer, gives what() up to its terminator, truncated to 255 characters |
| HandleAdapter.FirstFailure | Source/CNTKv2LibraryDll/CNTKLibraryC.cpp:52-59 | an early-return chain reports nothing exactly when every check passes; otherwise it reports the failure of the first failing check, every earlier check having passed |
| HandleAdapter.LoadModelValidation | Source/CNTKv2LibraryDll/CNTKLibraryC.cpp:52-59 | the checks pass exactly when handle, modelFilePath and device are all non-null. A null handle is reported first, then a null modelFilePath, then a null device, each as CNTK_ERROR_NULL_POINTER with its own message |
| HandleAdapter.LoadModel | Source/CNTKv2LibraryDll/CNTKLibraryC.cpp:50-63 | a failed check returns its status, leaves *handle unchanged and does not reach the engine. Otherwise the status is Call(construct), and *handle is the new evaluator on success or null when construction throws |
| HandleAdapter.CloneModelValidation | Source/CNTKv2LibraryDll/CNTKLibraryC.cpp:67-71 | the checks pass exactly when the model is not the sentinel and cloned is non-null. The sentinel is reported first, with code CNTK_INVALID_MODEL_HANDLE; a null cloned is reported with the 'handle' paramter message |
| HandleAdapter.CloneModel | Source/CNTKv2LibraryDll/CNTKLibraryC.cpp:65-74 | a failed check returns its status, leaves *cloned unchanged and does not reach the engine. Otherwise the status is Call(clone), and *cloned is the clone on success or unchanged when cloning throws |
| HandleAdapter.GetModelArgumentsInfo | Source/CNTKv2LibraryDll/CNTKLibraryC.cpp:81-94 | the engine is reached exactly when the model is not the sentinel and inputs and numInputs are non-null. The failures are reported in the order handle, inputs, numInputs. Once reached, the status is the engine's, through Call |
| HandleAdapter.GetModelOutputsInfo | Source/CNTKv2LibraryDll/CNTKLibraryC.cpp:96-109 | the same for outputs and numOutputs |
| HandleAdapter.EvaluateSequence | Source/CNTKv2LibraryDll/CNTKLibraryC.cpp:111-130 | the engine is reached exactly when the model is not the sentinel, whatever the pointer arguments are. The sentinel gives the invalid-handle record; otherwise the status is the engine's, through Call |
| HandleAdapter.RejectedCallIgnoresEngine | Source/CNTKv2LibraryDll/CNTKLibraryC.cpp:81-109 | when a check of CNTK_GetModelArgumentsInfo or of CNTK_GetModelOutputsInfo fails, the reply is the same whatever the engine would have done, and neither entry point reaches the engine |
| HandleAdapter.NullMessageReadsBack | Source/CNTKv2LibraryDll/CNTKLibraryC.cpp:52-59 | every "<parameter> is not allowed to be null" message reads back intact from its status record |
| HandleAdapter.InvalidHandleIsNotSuccess | Source/CNTKv2LibraryDll/CNTKLibraryC.cpp:67-68 | the invalid-handle record reads back "Invalid model handle" and differs from the success record, whatever the header's constants are |
| Cleanup.ReleaseKeepsSingleRelease | Source/CNTKv2LibraryDll/CNTKLibraryC.cpp:137-163 | releasing keeps every address released at most once exactly when the address is null or was not released before |
| Cleanup.Allocator.Delete | Source/CNTKv2LibraryDll/CNTKLibraryC.cpp:132-135 | delete logs a non-null address and ignores null |
| Cleanup.ReleaseModel | Source/CNTKv2LibraryDll/CNTKLibraryC.cpp:76-79 | the handle's address is released, or nothing for null; the sentinel is not checked |
| Cleanup.ReleaseArray | Source/CNTKv2LibraryDll/CNTKLibraryC.cpp:132-135 | the array's address is released, or nothing for null |
| Cleanup.CleanShape | Source/CNTKv2LibraryDll/CNTKLibraryC.cpp:156-163 | a null shape changes nothing. Otherwise the dimension buffer is released, size becomes 0 and value keeps the released address |
| Cleanup.CleanValue | Source/CNTKv2LibraryDll/CNTKLibraryC.cpp:146-154 | a null value changes nothing. Otherwise data and then the shape buffer are released, dataSize and shape.size become 0, and both pointers keep their addresses |
| Cleanup.CleanVariable | Source/CNTKv2LibraryDll/CNTKLibraryC.cpp:137-144 | a null variable changes nothing. Otherwise name and then the shape buffer are released, shape.size becomes 0, and both pointers keep their addresses |
| Cleanup.CleanShapeTwice | Source/CNTKv2LibraryDll/CNTKLibraryC.cpp:156-163 | cleaning the same shape twice releases its buffer twice, breaking the single-release discipline |
| Cleanup.CleanVariableOnce | Source/CNTKv2LibraryDll/CNTKLibraryC.cpp:137-144 | cleaning a variable with fresh, distinct name and shape buffers once releases each exactly once, name first |

## Left out

- Everything inside `EvaluatorWrapper` (loading, `Clone`, argument and output info, `EvaluateSequence`): its source is not part of this model. Each call is an `Outcome` parameter. What the engine writes through `inputs`, `numInputs`, `outputs`, `numOutputs` and `outputValues` is not modelled.
- The arguments forwarded to the engine (path and device strings, the cloning method, the flatten flag, the input and output arrays) are not modelled. Their effect is part of the engine's `Outcome`, so `CloneModel` takes neither the cloning method nor the flatten flag.
- The casts between `CNTK_ModelHandle` and `EvaluatorWrapper*`: handles are plain addresses.
- Exceptions outside `std::exception`: they escape `ExceptionCatcher::Call` and end the process, which is not a status.
- The character encoding of the `string` to `wstring` widening: the model copies element by element.
- The numeric values of the status codes, of `CNTK_INVALID_MODEL_HANDLE` and of the capacity of `description`: they live in the header, which is not part of this model. Codes and addresses are unbounded integers, not `int32_t` and pointers.
- Allocation and the difference between `delete` and `delete[]`: the allocator only logs releases, and buffer contents are not modelled. Only the struct fields that the cleanup code touches are modelled.
- Concurrency: the layer holds no state, and thread safety belongs to the engine.
- StatusTranslator.Call: the read-back of `what()` is stated only for texts shorter than 2^32 - 1 characters. Longer texts wrap the uint32 copy length, as `WrappedLengthCopiesNothing` shows.
- StatusTranslator.DescriptionReadsBack: the read-back is bounded by the buffer. With a declared capacity of exactly 255 and a message of 255 or more characters, the description holds no terminator (`DescriptionTerminated`). An unbounded C read then runs past the record, and the model does not follow it there, because the capacity lives in the header, which is not part of this model.
