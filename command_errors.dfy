/** Error codes of the command-execution layer and their two renderings:
    a human-readable message and the code's symbolic name. */
module CommandErrors {

  const ERROR_SUCCESS: int := 0
  const ERROR_SYSTEM_NOT_INITIALIZED: int := -1
  const ERROR_INVALID_PARAMETERS: int := -2
  const ERROR_COMMAND_NOT_FOUND: int := -3
  const ERROR_COMMAND_CORRUPTED: int := -4
  const ERROR_COMMAND_INVALID: int := -5
  const ERROR_INVALID_ARG_COUNT: int := -6
  const ERROR_ARG_VALIDATION_FAILED: int := -7
  const ERROR_NO_HANDLER: int := -8

  const UNKNOWN_ERROR_MESSAGE: string := "Unknown error code"
  const UNKNOWN_ERROR_NAME: string := "ERROR_UNKNOWN"

  /** The nine codes the tables know, success first. */
  const KnownCodes: seq<int> := [
    ERROR_SUCCESS, ERROR_SYSTEM_NOT_INITIALIZED, ERROR_INVALID_PARAMETERS,
    ERROR_COMMAND_NOT_FOUND, ERROR_COMMAND_CORRUPTED, ERROR_COMMAND_INVALID,
    ERROR_INVALID_ARG_COUNT, ERROR_ARG_VALIDATION_FAILED, ERROR_NO_HANDLER]

  // Message getters, one per known code.
  function GetErrorMessageSuccess(): string { "Success" }
  function GetErrorMessageSystemNotInitialized(): string { "Command system not initialized" }
  function GetErrorMessageInvalidParameters(): string { "Invalid parameters provided" }
  function GetErrorMessageCommandNotFound(): string { "Command not found" }
  function GetErrorMessageCommandCorrupted(): string { "Command structure corrupted" }
  function GetErrorMessageCommandInvalid(): string { "Invalid command ID detected" }
  function GetErrorMessageInvalidArgCount(): string { "Invalid number of arguments" }
  function GetErrorMessageArgValidationFailed(): string { "Argument validation failed" }
  function GetErrorMessageNoHandler(): string { "No handler for command" }

  /** The message getters in the order of KnownCodes. */
  function KnownMessages(): seq<string> {
    [GetErrorMessageSuccess(), GetErrorMessageSystemNotInitialized(),
     GetErrorMessageInvalidParameters(), GetErrorMessageCommandNotFound(),
     GetErrorMessageCommandCorrupted(), GetErrorMessageCommandInvalid(),
     GetErrorMessageInvalidArgCount(), GetErrorMessageArgValidationFailed(),
     GetErrorMessageNoHandler()]
  }

  /** The symbolic names in the order of KnownCodes. */
  function KnownNames(): seq<string> {
    ["SUCCESS", "ERROR_SYSTEM_NOT_INITIALIZED", "ERROR_INVALID_PARAMETERS",
     "ERROR_COMMAND_NOT_FOUND", "ERROR_COMMAND_CORRUPTED", "ERROR_COMMAND_INVALID",
     "ERROR_INVALID_ARG_COUNT", "ERROR_ARG_VALIDATION_FAILED", "ERROR_NO_HANDLER"]
  }

  /** `get_error_message`: total; a known code gets its own message, any other
      code the fixed unknown-code text. */
  function GetErrorMessage(code: int): (r: string)
    ensures ERROR_NO_HANDLER <= code <= ERROR_SUCCESS ==> KnownCodes[-code] == code && r == KnownMessages()[-code]
    ensures code !in KnownCodes <==> r == UNKNOWN_ERROR_MESSAGE
  {
    match code
    case 0 => GetErrorMessageSuccess()
    case -1 => GetErrorMessageSystemNotInitialized()
    case -2 => GetErrorMessageInvalidParameters()
    case -3 => GetErrorMessageCommandNotFound()
    case -4 => GetErrorMessageCommandCorrupted()
    case -5 => GetErrorMessageCommandInvalid()
    case -6 => GetErrorMessageInvalidArgCount()
    case -7 => GetErrorMessageArgValidationFailed()
    case -8 => GetErrorMessageNoHandler()
    case _ => UNKNOWN_ERROR_MESSAGE
  }

  /** `error_code_to_string`: total, with "ERROR_UNKNOWN" for any other code. */
  function ErrorCodeToString(code: int): (r: string)
    ensures ERROR_NO_HANDLER <= code <= ERROR_SUCCESS ==> KnownCodes[-code] == code && r == KnownNames()[-code]
    ensures code !in KnownCodes <==> r == UNKNOWN_ERROR_NAME
  {
    match code
    case 0 => "SUCCESS"
    case -1 => "ERROR_SYSTEM_NOT_INITIALIZED"
    case -2 => "ERROR_INVALID_PARAMETERS"
    case -3 => "ERROR_COMMAND_NOT_FOUND"
    case -4 => "ERROR_COMMAND_CORRUPTED"
    case -5 => "ERROR_COMMAND_INVALID"
    case -6 => "ERROR_INVALID_ARG_COUNT"
    case -7 => "ERROR_ARG_VALIDATION_FAILED"
    case -8 => "ERROR_NO_HANDLER"
    case _ => UNKNOWN_ERROR_NAME
  }

  /** `is_error_code`: every negative code is an error. */
  predicate IsErrorCode(code: int) { code < ERROR_SUCCESS }

  /** `is_success_code`: only the success code. */
  predicate IsSuccessCode(code: int) { code == ERROR_SUCCESS }

  /** No code is both an error and a success, and every known code is exactly one of the two. */
  lemma ErrorAndSuccessDisjoint(code: int)
    ensures !(IsErrorCode(code) && IsSuccessCode(code))
    ensures code in KnownCodes ==> IsErrorCode(code) != IsSuccessCode(code)
    ensures IsErrorCode(code) <==> code < 0
    ensures IsSuccessCode(code) <==> code == 0
  {
  }

  /** Looking up the message of a code given by a code getter yields the
      corresponding message getter's text. */
  lemma MessageOfGetterCode(i: nat)
    requires i < |KnownCodes|
    ensures GetErrorMessage(KnownCodes[i]) == KnownMessages()[i]
    ensures ErrorCodeToString(KnownCodes[i]) == KnownNames()[i]
  {
  }

  /** The message table is injective over the known codes and never gives a
      known code the unknown-code text. */
  lemma MessagesInjective(i: nat, j: nat)
    requires i < |KnownCodes| && j < |KnownCodes| && i != j
    ensures GetErrorMessage(KnownCodes[i]) != GetErrorMessage(KnownCodes[j])
    ensures GetErrorMessage(KnownCodes[i]) != UNKNOWN_ERROR_MESSAGE
  {
    MessageOfGetterCode(i);
    MessageOfGetterCode(j);
  }

  /** The same for the name table. */
  lemma NamesInjective(i: nat, j: nat)
    requires i < |KnownCodes| && j < |KnownCodes| && i != j
    ensures ErrorCodeToString(KnownCodes[i]) != ErrorCodeToString(KnownCodes[j])
    ensures ErrorCodeToString(KnownCodes[i]) != UNKNOWN_ERROR_NAME
  {
    MessageOfGetterCode(i);
    MessageOfGetterCode(j);
  }
}
