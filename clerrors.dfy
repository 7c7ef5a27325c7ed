/**
 * Diagnostics of the compute manager: the OpenCL status test `CheckSuccess`
 * and the table `ErrorString` from OpenCL status codes (the values the
 * Khronos OpenCL 1.x header cl.h gives its CL_* error macros) to the macro
 * names, with a decimal "unknown code" fallback.
 */
module ClErrors {
  import opened Wrappers

  /** `cl_int`: a signed 32-bit integer. */
  type ClInt = x: int | -0x8000_0000 <= x < 0x8000_0000

  const CL_SUCCESS: ClInt := 0

  /** The prefix of the message for a code the table does not list. */
  const UnknownPrefix: string := "Unknown OpenCL error code - "

  /**
   * True exactly for the status CL_SUCCESS; every other status is a
   * failure. `CheckSuccessMessage` ties it to the message table.
   */
  function CheckSuccess(error: ClInt): (ok: bool)
  {
    error == CL_SUCCESS
  }

  /** The codes the table lists: CL_SUCCESS, -1..-12 and -30..-63. */
  predicate IsListed(error: int)
  {
    error == 0 || -12 <= error <= -1 || -63 <= error <= -30
  }

  /** The decimal digit for 0 <= d < 10. */
  function DigitChar(d: nat): char
    requires d < 10
  {
    "0123456789"[d]
  }

  /** The decimal digits of a natural number, most significant first, as `<<` on a stream prints them. */
  function NatDigits(n: nat): (s: string)
    ensures |s| > 0
    ensures forall i :: 0 <= i < |s| ==> '0' <= s[i] <= '9'
    ensures |s| > 1 ==> s[0] != '0'
  {
    if n < 10 then [DigitChar(n)] else NatDigits(n / 10) + [DigitChar(n % 10)]
  }

  /** The decimal text of an integer: a minus sign for negative values, then the digits of its magnitude. */
  function Decimal(n: int): (s: string)
    ensures |s| > 0
    ensures s[0] == '-' <==> n < 0
    ensures forall i :: (if n < 0 then 1 else 0) <= i < |s| ==> '0' <= s[i] <= '9'
    ensures n < 0 ==> |s| > 1
  {
    if n < 0 then "-" + NatDigits(-n) else NatDigits(n)
  }

  /** The value of a nonempty string of decimal digits. */
  function DigitsValue(s: string): (n: nat)
    requires forall i :: 0 <= i < |s| ==> '0' <= s[i] <= '9'
  {
    if s == [] then 0 else DigitsValue(s[..|s| - 1]) * 10 + (s[|s| - 1] - '0') as nat
  }

  /** Reads a decimal integer back: an optional minus sign and digits. */
  function ParseDecimal(s: string): (r: Option<int>)
  {
    if s == [] then None
    else if s[0] == '-' then
      (if |s| > 1 && AllDigits(s[1..]) then Some(-(DigitsValue(s[1..]) as int)) else None)
    else if AllDigits(s) then Some(DigitsValue(s) as int)
    else None
  }

  predicate AllDigits(s: string)
  {
    forall i :: 0 <= i < |s| ==> '0' <= s[i] <= '9'
  }

  lemma {:induction false} NatDigitsValue(n: nat)
    ensures DigitsValue(NatDigits(n)) == n
  {
    if n >= 10 {
      NatDigitsValue(n / 10);
      var s := NatDigits(n);
      assert s[..|s| - 1] == NatDigits(n / 10);
    }
  }

  /** A digit string with no sign reads back as its value. */
  lemma ParseDigits(d: string)
    requires |d| > 0 && AllDigits(d)
    ensures ParseDecimal(d) == Some(DigitsValue(d) as int)
  {
  }

  /** A minus sign followed by a digit string reads back as the negated value. */
  lemma ParseNegative(d: string)
    requires |d| > 0 && AllDigits(d)
    ensures ParseDecimal("-" + d) == Some(-(DigitsValue(d) as int))
  {
  }

  /** Printing a code in decimal and reading it back gives the code again. */
  lemma DecimalRoundTrip(n: int)
    ensures ParseDecimal(Decimal(n)) == Some(n)
  {
    if n < 0 {
      NegativeRoundTrip(n);
    } else {
      NatRoundTrip(n);
    }
  }

  lemma NegativeRoundTrip(n: int)
    requires n < 0
    ensures ParseDecimal(Decimal(n)) == Some(n)
  {
    var m: nat := -n;
    var d := NatDigits(m);
    assert Decimal(n) == "-" + d;
    NatDigitsValue(m);
    ParseNegative(d);
    calc {
      ParseDecimal(Decimal(n));
      ParseDecimal("-" + d);
      Some(-(DigitsValue(d) as int));
    }
  }

  lemma NatRoundTrip(n: nat)
    ensures ParseDecimal(Decimal(n)) == Some(n)
  {
    var d := NatDigits(n);
    NatDigitsValue(n);
    ParseDigits(d);
    assert Decimal(n) == d;
  }

  /**
   * The message for an OpenCL status: the macro name for every listed code,
   * otherwise the unknown-code prefix followed by the code in decimal.
   * The source has one switch over all listed codes; here it is split into
   * six tables by code range so that each table's proof stays small.
   */
  function ErrorString(error: ClInt): (msg: string)
    ensures IsListed(error) ==> |msg| > 3 && "CL_" <= msg
    ensures !IsListed(error) ==> msg == UnknownPrefix + Decimal(error)
  {
    if -6 <= error <= 0 then SuccessName(error)
    else if -12 <= error <= -7 then RuntimeName(error)
    else if -38 <= error <= -30 then InvalidObjectName(error)
    else if -46 <= error <= -39 then InvalidProgramName(error)
    else if -55 <= error <= -47 then InvalidKernelName(error)
    else if -63 <= error <= -56 then InvalidEnqueueName(error)
    else UnknownPrefix + Decimal(error)
  }

  /** The names of CL_SUCCESS and the codes -1..-6. */
  function SuccessName(error: ClInt): (msg: string)
    requires -6 <= error <= 0
    ensures |msg| > 3 && "CL_" <= msg
  {
    match error
    case 0 => "CL_SUCCESS"
    case -1 => "CL_DEVICE_NOT_FOUND"
    case -2 => "CL_DEVICE_NOT_AVAILABLE"
    case -3 => "CL_COMPILER_NOT_AVAILABLE"
    case -4 => "CL_MEM_OBJECT_ALLOCATION_FAILURE"
    case -5 => "CL_OUT_OF_RESOURCES"
    case _ => "CL_OUT_OF_HOST_MEMORY"  // -6
  }

  /** The names of the codes -7..-12. */
  function RuntimeName(error: ClInt): (msg: string)
    requires -12 <= error <= -7
    ensures |msg| > 3 && "CL_" <= msg
  {
    match error
    case -7 => "CL_PROFILING_INFO_NOT_AVAILABLE"
    case -8 => "CL_MEM_COPY_OVERLAP"
    case -9 => "CL_IMAGE_FORMAT_MISMATCH"
    case -10 => "CL_IMAGE_FORMAT_NOT_SUPPORTED"
    case -11 => "CL_BUILD_PROGRAM_FAILURE"
    case _ => "CL_MAP_FAILURE"  // -12
  }

  /** The names of the codes -30..-38. */
  function InvalidObjectName(error: ClInt): (msg: string)
    requires -38 <= error <= -30
    ensures |msg| > 3 && "CL_" <= msg
  {
    match error
    case -30 => "CL_INVALID_VALUE"
    case -31 => "CL_INVALID_DEVICE_TYPE"
    case -32 => "CL_INVALID_PLATFORM"
    case -33 => "CL_INVALID_DEVICE"
    case -34 => "CL_INVALID_CONTEXT"
    case -35 => "CL_INVALID_QUEUE_PROPERTIES"
    case -36 => "CL_INVALID_COMMAND_QUEUE"
    case -37 => "CL_INVALID_HOST_PTR"
    case _ => "CL_INVALID_MEM_OBJECT"  // -38
  }

  /** The names of the codes -39..-46. */
  function InvalidProgramName(error: ClInt): (msg: string)
    requires -46 <= error <= -39
    ensures |msg| > 3 && "CL_" <= msg
  {
    match error
    case -39 => "CL_INVALID_IMAGE_FORMAT_DESCRIPTOR"
    case -40 => "CL_INVALID_IMAGE_SIZE"
    case -41 => "CL_INVALID_SAMPLER"
    case -42 => "CL_INVALID_BINARY"
    case -43 => "CL_INVALID_BUILD_OPTIONS"
    case -44 => "CL_INVALID_PROGRAM"
    case -45 => "CL_INVALID_PROGRAM_EXECUTABLE"
    case _ => "CL_INVALID_KERNEL_NAME"  // -46
  }

  /** The names of the codes -47..-55. */
  function InvalidKernelName(error: ClInt): (msg: string)
    requires -55 <= error <= -47
    ensures |msg| > 3 && "CL_" <= msg
  {
    match error
    case -47 => "CL_INVALID_KERNEL_DEFINITION"
    case -48 => "CL_INVALID_KERNEL"
    case -49 => "CL_INVALID_ARG_INDEX"
    case -50 => "CL_INVALID_ARG_VALUE"
    case -51 => "CL_INVALID_ARG_SIZE"
    case -52 => "CL_INVALID_KERNEL_ARGS"
    case -53 => "CL_INVALID_WORK_DIMENSION"
    case -54 => "CL_INVALID_WORK_GROUP_SIZE"
    case _ => "CL_INVALID_WORK_ITEM_SIZE"  // -55
  }

  /** The names of the codes -56..-63. */
  function InvalidEnqueueName(error: ClInt): (msg: string)
    requires -63 <= error <= -56
    ensures |msg| > 3 && "CL_" <= msg
  {
    match error
    case -56 => "CL_INVALID_GLOBAL_OFFSET"
    case -57 => "CL_INVALID_EVENT_WAIT_LIST"
    case -58 => "CL_INVALID_EVENT"
    case -59 => "CL_INVALID_OPERATION"
    case -60 => "CL_INVALID_GL_OBJECT"
    case -61 => "CL_INVALID_BUFFER_SIZE"
    case -62 => "CL_INVALID_MIP_LEVEL"
    case _ => "CL_INVALID_GLOBAL_WORK_SIZE"  // -63
  }

  /** CheckSuccess holds exactly for the code whose message is "CL_SUCCESS". */
  lemma CheckSuccessMessage(error: ClInt)
    ensures CheckSuccess(error) <==> ErrorString(error) == "CL_SUCCESS"
  {
  }

  /** The code of an unlisted status can be read back from its message. */
  lemma UnknownMessageCode(error: ClInt)
    requires !IsListed(error)
    ensures |ErrorString(error)| > |UnknownPrefix|
    ensures ParseDecimal(ErrorString(error)[|UnknownPrefix|..]) == Some(error as int)
  {
    var msg := ErrorString(error);
    assert msg[|UnknownPrefix|..] == Decimal(error);
    DecimalRoundTrip(error);
  }

  /** No two codes share a message unless both are listed codes. */
  lemma MessagesDistinct(a: ClInt, b: ClInt)
    requires !IsListed(a) || !IsListed(b)
    requires ErrorString(a) == ErrorString(b)
    ensures a == b
  {
    if !IsListed(a) && !IsListed(b) {
      UnknownMessageCode(a);
      UnknownMessageCode(b);
    } else {
      MessageHead(a);
      MessageHead(b);
    }
  }

  /** A listed code's message starts with 'C', an unlisted one's with 'U'. */
  lemma MessageHead(error: ClInt)
    ensures |ErrorString(error)| > 0
    ensures ErrorString(error)[0] == if IsListed(error) then 'C' else 'U'
  {
  }
}
