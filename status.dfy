/**
 * The status translator of CNTKLibraryC.cpp: building a fixed-size status
 * record from a code and a message (StatusCode), and turning the outcome of a
 * unit of work into such a record (ExceptionCatcher::Call).
 */
module StatusTranslator {
  import opened Header

  /** The string terminator. */
  const Nul: char := '\0'

  /** The most characters StatusCode copies into the description (the `255u`). */
  const CopyCap: nat := 255

  /** The copy length is computed in `uint32_t`, which wraps at this modulus. */
  const Uint32Modulus: nat := 0x1_0000_0000

  /** The value of a CNTK_StatusCode record: a code and the whole description buffer. */
  datatype Status = Status(code: int, description: seq<char>)

  /**
   * What the action handed to ExceptionCatcher::Call does: it completes (with
   * the value it stores, if any), or it throws a std::exception whose what()
   * points at the characters `what`.
   */
  datatype Outcome<T> = Completes(value: T) | Throws(what: seq<char>)

  function Min(a: int, b: int): (m: int) { if a <= b then a else b }

  /**
   * A read of a character buffer bounded by the buffer: everything before the
   * first terminator, or the whole buffer when it holds none. A C reader that
   * is not bounded (wcslen, say) reads the same text only when the buffer
   * holds a terminator; otherwise it runs past the buffer.
   */
  function CString(s: seq<char>): (r: seq<char>)
    ensures r <= s
    ensures Nul !in r
    ensures |r| < |s| ==> s[|r|] == Nul
  {
    if s == [] || s[0] == Nul then [] else [s[0]] + CString(s[1..])
  }

  /** The first 255 characters of a message, or all of it when it is shorter. */
  function Truncated(message: seq<char>): (t: seq<char>)
  {
    message[..Min(|message|, CopyCap)]
  }

  /**
   * How many characters StatusCode copies from the terminated message:
   * `min((uint32_t)(size + 1), 255u)`, with the 32-bit wrap of the cast.
   */
  function CopyLength(message: seq<char>): (n: nat)
    ensures n <= CopyCap && n <= |message| + 1
    ensures |message| + 1 < Uint32Modulus ==> n == Min(|message| + 1, CopyCap)
  {
    var length := (|message| + 1) % Uint32Modulus;
    if length < CopyCap then length else CopyCap
  }

  /**
   * The record StatusCode(code, message) returns. `CNTK_StatusCode result { code }`
   * value-initialises the record, so every description character the copy does
   * not reach is a terminator.
   */
  function StatusOf(code: int, message: seq<char>): (s: Status)
    ensures s.code == code && |s.description| == DescriptionCapacity
    ensures forall i :: 0 <= i < CopyLength(message) ==> s.description[i] == (message + [Nul])[i]
    ensures forall i :: CopyLength(message) <= i < |s.description| ==> s.description[i] == Nul
    ensures forall i :: CopyCap <= i < |s.description| ==> s.description[i] == Nul
  {
    var terminated := message + [Nul];
    var n := CopyLength(message);
    Status(code, seq(DescriptionCapacity, i requires 0 <= i < DescriptionCapacity =>
      if i < n then terminated[i] else Nul))
  }

  /**
   * StatusCode: widen the message (an element-wise copy here) and copy
   * CopyLength(message) characters of its terminated form into the
   * zero-initialised description.
   */
  method StatusCode(code: int, message: seq<char>) returns (result: Status)
    ensures result == StatusOf(code, message)
  {
    var description := new char[DescriptionCapacity](_ => Nul);
    var value := message;
    var size := CopyLength(value);
    var terminated := value + [Nul];
    for i := 0 to size
      invariant forall j :: 0 <= j < i ==> description[j] == terminated[j]
      invariant forall j :: i <= j < description.Length ==> description[j] == Nul
    {
      description[i] := terminated[i];
    }
    result := Status(code, description[..]);
    assert forall j :: 0 <= j < DescriptionCapacity ==>
      result.description[j] == StatusOf(code, message).description[j];
  }

  /** A message of at most 254 characters is copied whole, followed by its terminator. */
  lemma ShortMessageCopiedWhole(code: int, message: seq<char>)
    requires |message| < CopyCap
    ensures StatusOf(code, message).description[..|message| + 1] == message + [Nul]
  {
  }

  /**
   * A longer message (short of the 32-bit wrap) loses everything past its
   * 255th character, and no terminator is written among those 255.
   */
  lemma LongMessageTruncated(code: int, message: seq<char>)
    requires CopyCap <= |message| && |message| + 1 < Uint32Modulus
    ensures StatusOf(code, message).description[..CopyCap] == message[..CopyCap]
    ensures Nul !in message ==> Nul !in StatusOf(code, message).description[..CopyCap]
  {
  }

  /**
   * Round trip: for a message without terminators and short of the 32-bit wrap,
   * the read of the description bounded by the buffer gives the message cut to
   * 255 characters. DescriptionTerminated says when an unbounded C read agrees.
   */
  lemma DescriptionReadsBack(code: int, message: seq<char>)
    requires Nul !in message && |message| + 1 < Uint32Modulus
    ensures CString(StatusOf(code, message).description) == Truncated(message)
  {
    var d := StatusOf(code, message).description;
    var t := Truncated(message);
    assert d[..|t|] == t by {
      assert forall i :: 0 <= i < |t| ==> d[..|t|][i] == t[i];
    }
    if |t| < |d| {
      assert d[|t|] == Nul;
    }
  }

  /**
   * When the description holds a terminator, so that a C reader stops inside
   * the record: exactly when the message is shorter than 255 characters (the
   * copy writes the terminator) or the declared capacity exceeds 255 (the
   * value-initialised rest of the record supplies one). When it does, the
   * first terminator follows the truncated message.
   */
  lemma DescriptionTerminated(code: int, message: seq<char>)
    requires Nul !in message && |message| + 1 < Uint32Modulus
    ensures Nul in StatusOf(code, message).description <==>
      |message| < CopyCap || DescriptionCapacity > CopyCap
    ensures Nul in StatusOf(code, message).description ==>
      |Truncated(message)| < DescriptionCapacity &&
      StatusOf(code, message).description[|Truncated(message)|] == Nul
  {
    var d := StatusOf(code, message).description;
    var n := |Truncated(message)|;
    if |message| < CopyCap || DescriptionCapacity > CopyCap {
      assert d[n] == Nul;
    } else {
      assert forall i :: 0 <= i < |d| ==> d[i] == message[i];
    }
  }

  /**
   * A 300-character message reads back as 255 characters, whose end a C reader
   * finds inside the record only when the declared capacity exceeds 255: the
   * copy stops at 255 and writes no terminator.
   */
  lemma ThreeHundredCharacterMessage(code: int, message: seq<char>)
    requires |message| == 300 && Nul !in message
    ensures |CString(StatusOf(code, message).description)| == CopyCap
    ensures Nul in StatusOf(code, message).description <==> DescriptionCapacity > CopyCap
  {
    DescriptionReadsBack(code, message);
    DescriptionTerminated(code, message);
  }

  /**
   * The 32-bit wrap: a message of 2^32 - 1 characters makes `size + 1` wrap to
   * zero, so nothing is copied and the description stays empty.
   */
  lemma WrappedLengthCopiesNothing(code: int, message: seq<char>)
    requires |message| == Uint32Modulus - 1
    ensures CString(StatusOf(code, message).description) == []
  {
  }

  /** The record for a completed action: the success code and an all-terminator description. */
  function SuccessStatus(): (s: Status)
    ensures s.code == Success && |s.description| == DescriptionCapacity
    ensures CString(s.description) == []
  {
    Status(Success, seq(DescriptionCapacity, _ => Nul))
  }

  /**
   * ExceptionCatcher::Call: a completed action gives the success record; an
   * action that throws gives the internal-error record carrying what(), read up
   * to its terminator and truncated as StatusCode truncates (the description
   * read bounded by the buffer).
   */
  function Call<T>(action: Outcome<T>): (s: Status)
    ensures |s.description| == DescriptionCapacity
    ensures s.code == if action.Completes? then Success else InternalError
    ensures action.Completes? ==> CString(s.description) == []
    ensures action.Throws? && |action.what| + 1 < Uint32Modulus ==>
      CString(s.description) == Truncated(CString(action.what))
  {
    match action
    case Completes(_) => SuccessStatus()
    case Throws(what) =>
      var message := CString(what);
      assert |what| + 1 < Uint32Modulus ==>
        CString(StatusOf(InternalError, message).description) == Truncated(message) by {
        if |what| + 1 < Uint32Modulus {
          DescriptionReadsBack(InternalError, message);
        }
      }
      StatusOf(InternalError, message)
  }
}
