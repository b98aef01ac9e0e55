/** Argument validators of the command white-list client and its error-code
    getters. An argument vector is a sequence of possibly-NULL C strings whose
    length is the argument count. */
module CommandStubs {
  import opened CTypes
  import CommandErrors

  type Args = seq<Option<CString>>

  /** An argument that is present and not the empty string. */
  predicate NonEmptyArg(a: Option<CString>) { a.Some? && |a.value| > 0 }

  /** `validate_key`: holds exactly for a single non-empty key. */
  function ValidateKey(args: Args): (ok: bool)
    ensures ok <==> exists k: CString :: k != "" && args == [Some(k)]
  {
    var r := |args| == 1 && args[0].Some? && |args[0].value| > 0;
    assert r ==> args == [Some(args[0].value)];
    r
  }

  /** `validate_kv`: exactly two present arguments, the key non-empty; the value may be empty. */
  function ValidateKv(args: Args): (ok: bool)
    ensures ok <==> exists k: CString, v: CString :: k != "" && args == [Some(k), Some(v)]
  {
    var r := |args| == 2 && args[0].Some? && args[1].Some? && |args[0].value| > 0;
    assert r ==> args == [Some(args[0].value), Some(args[1].value)];
    r
  }

  /** `validate_keys`: one to five arguments, each present and non-empty;
      the scan stops at the first bad argument. */
  method ValidateKeys(args: Args) returns (ok: bool)
    ensures ok <==> 1 <= |args| <= 5 && forall i :: 0 <= i < |args| ==> NonEmptyArg(args[i])
  {
    if |args| < 1 || |args| > 5 {
      return false;
    }
    var i := 0;
    while i < |args|
      invariant 0 <= i <= |args|
      invariant forall j :: 0 <= j < i ==> NonEmptyArg(args[j])
    {
      if args[i].None? || |args[i].value| == 0 {
        return false;
      }
      i := i + 1;
    }
    return true;
  }

  /** `validate_auth`: the same test as `validate_key`. */
  function ValidateAuth(args: Args): (ok: bool)
    ensures ok == ValidateKey(args)
  {
    |args| == 1 && args[0].Some? && |args[0].value| > 0
  }

  /** A single valid key also passes the multi-key validator, and never the key/value one. */
  lemma KeyImpliesKeys(args: Args)
    requires ValidateKey(args)
    ensures 1 <= |args| <= 5 && forall i :: 0 <= i < |args| ==> NonEmptyArg(args[i])
    ensures !ValidateKv(args)
  {
  }

  // Error-code getters of the stubs file: the nine codes shared with the
  // error table, plus two codes the table does not know.
  function GetErrorSystemNotInitialized(): int { -1 }
  function GetErrorInvalidParameters(): int { -2 }
  function GetErrorCommandNotFound(): int { -3 }
  function GetErrorCommandCorrupted(): int { -4 }
  function GetErrorCommandInvalid(): int { -5 }
  function GetErrorInvalidArgCount(): int { -6 }
  function GetErrorArgValidationFailed(): int { -7 }
  function GetErrorSuccess(): int { 0 }
  function GetErrorNoHandler(): int { -8 }
  function GetErrorInvalidContext(): int { -9 }
  function GetErrorAccessDenied(): int { -10 }

  /** The ten error getters, in declaration order. */
  function StubErrorCodes(): seq<int> {
    [GetErrorSystemNotInitialized(), GetErrorInvalidParameters(), GetErrorCommandNotFound(),
     GetErrorCommandCorrupted(), GetErrorCommandInvalid(), GetErrorInvalidArgCount(),
     GetErrorArgValidationFailed(), GetErrorNoHandler(), GetErrorInvalidContext(),
     GetErrorAccessDenied()]
  }

  /** The success code is 0; the ten error codes are -1 .. -10, negative and pairwise distinct. */
  lemma StubCodesDistinct()
    ensures GetErrorSuccess() == 0
    ensures forall i :: 0 <= i < |StubErrorCodes()| ==> StubErrorCodes()[i] == -(i + 1)
    ensures forall i, j :: 0 <= i < j < |StubErrorCodes()| ==> StubErrorCodes()[i] != StubErrorCodes()[j]
  {
  }

  /** The shared codes agree with the error table, and the two extra codes
      (-9 and -10) fall through to the table's unknown-code message. */
  lemma StubCodesAgainstTable()
    ensures forall i :: 0 <= i < 8 ==> StubErrorCodes()[i] == CommandErrors.KnownCodes[i + 1]
    ensures GetErrorSuccess() == CommandErrors.ERROR_SUCCESS
    ensures CommandErrors.GetErrorMessage(GetErrorInvalidContext()) == CommandErrors.UNKNOWN_ERROR_MESSAGE
    ensures CommandErrors.GetErrorMessage(GetErrorAccessDenied()) == CommandErrors.UNKNOWN_ERROR_MESSAGE
    ensures CommandErrors.ErrorCodeToString(GetErrorInvalidContext()) == CommandErrors.UNKNOWN_ERROR_NAME
    ensures CommandErrors.ErrorCodeToString(GetErrorAccessDenied()) == CommandErrors.UNKNOWN_ERROR_NAME
  {
  }
}
