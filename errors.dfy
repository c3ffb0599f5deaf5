/**
 * Interpretation of the broker's failure envelopes (pyxtb/errors.py): the
 * table of known error codes and `handle_error`, which picks the message of
 * the exception it raises.
 */
module Errors {
  import opened Values

  /** The message every system error (a code starting with `SE`) is reported with. */
  const InternalError := "Internal error, in case of such error, please contact support"

  /**
   * The table of known error codes, entry for entry as the client ships it:
   * `Table(code)` is `Some(CODES[code])` when `code in CODES`, `None` otherwise.
   */
  function Table(code: string): Option<string>
  {
    match code
    case "BE001" => Some("Invalid price")
    case "BE002" => Some("Invalid StopLoss or TakeProfit")
    case "BE003" => Some("Invalid volume")
    case "BE004" => Some("Login disabled")
    case "BE005" => Some("userPasswordCheck: Invalid login or password.")
    case "BE006" => Some("Market for instrument is closed")
    case "BE007" => Some("Mismatched parameters")
    case "BE008" => Some("Modification is denied")
    case "BE009" => Some("Not enough money on account to perform trade")
    case "BE010" => Some("Off quotes")
    case "BE011" => Some("Opposite positions prohibited")
    case "BE012" => Some("Short positions prohibited")
    case "BE013" => Some("Price has changed")
    case "BE014" => Some("Request too frequent")
    case "BE016" => Some("Too many trade requests")
    case "BE017" => Some("Too many trade requests")
    case "BE018" => Some("Trading on instrument disabled")
    case "BE019" => Some("Trading timeout")
    case "BE020" => Some("Other error")
    case "BE021" => Some("Other error")
    case "BE022" => Some("Other error")
    case "BE023" => Some("Other error")
    case "BE024" => Some("Other error")
    case "BE025" => Some("Other error")
    case "BE026" => Some("Other error")
    case "BE027" => Some("Other error")
    case "BE028" => Some("Other error")
    case "BE029" => Some("Other error")
    case "BE030" => Some("Other error")
    case "BE031" => Some("Other error")
    case "BE032" => Some("Other error")
    case "BE033" => Some("Other error")
    case "BE034" => Some("Other error")
    case "BE035" => Some("Other error")
    case "BE036" => Some("Other error")
    case "BE037" => Some("Other error")
    case "BE099" => Some("Other error")
    case "BE094" => Some("Symbol does not exist for given account")
    case "BE095" => Some("Account cannot trade on given symbol")
    case "BE096" => Some("Pending order cannot be closed. Pending order must be deleted")
    case "BE097" => Some("Cannot close already closed order")
    case "BE098" => Some("No such transaction")
    case "BE101" => Some("Unknown instrument symbol")
    case "BE102" => Some("Unknown transaction type")
    case "BE103" => Some("User is not logged")
    case "BE104" => Some("Method does not exist")
    case "BE105" => Some("Incorrect period given")
    case "BE106" => Some("Missing data")
    case "BE110" => Some("Incorrect command format")
    case "BE115" => Some("Symbol does not exist")
    case "BE116" => Some("Symbol does not exist")
    case "BE117" => Some("Invalid token")
    case "BE118" => Some("User already logged")
    case "BE200" => Some("Session timed out.")
    case "EX000" => Some("Invalid parameters")
    case "EX001" => Some("Internal error, in case of such error, please contact support")
    case "EX002" => Some("Internal error, in case of such error, please contact support")
    case "SExxx" => Some("Internal error, in case of such error, please contact support")
    case "BE000" => Some("Internal error, in case of such error, please contact support")
    case "EX003" => Some("Internal error, request timed out")
    case "EX004" => Some("Login credentials are incorrect or this login is not allowed to use an application with this appId")
    case "EX005" => Some("Internal error, system overloaded")
    case "EX006" => Some("No access")
    case "EX007" => Some("userPasswordCheck: Invalid login or password. This login/password is disabled for 10 minutes (the specific login and password pair is blocked after an unsuccessful login attempt).")
    case "EX008" => Some("You have reached the connection limit. For details see the Connection validation section.")
    case "EX009" => Some("Data limit potentially exceeded. Please narrow your request range. The potential data size is calculated by: (end_time - start_time) / interval. The limit is 50 000 candles")
    case "EX010" => Some("Your login is on the black list, perhaps due to previous misuse. For details please contact support.")
    case "EX011" => Some("You are not allowed to execute this command. For details please contact support.")
    case _ => None
  }

  /** `code.startswith("SE")`. */
  predicate IsSystemCode(code: string)
  {
    |code| >= 2 && code[0] == 'S' && code[1] == 'E'
  }

  /** The codes `startswith("SE")` accepts are `SE` followed by anything, and only those. */
  lemma SystemCodePrefix(code: string, rest: string)
    ensures IsSystemCode("SE" + rest)
    ensures IsSystemCode(code) ==> code == "SE" + code[2..]
    ensures |code| < 2 || code[..2] != "SE" ==> !IsSystemCode(code)
  {
    if IsSystemCode(code) {
      assert code[..2] == "SE";
    }
  }

  /**
   * `handle_error(response)`: the exception it raises. The result type has no
   * normal outcome, so every path raises: the internal-error text for an `SE`
   * code, the table message for a known code, the envelope's own `errorDescr`
   * otherwise; a missing or non-string `errorCode`, or a missing `errorDescr`
   * on the fallback path, raise the lookup's own error instead.
   */
  function HandleError(response: Json): (e: Failure)
    ensures Subscript(response, "errorCode").Err? ==> e == Subscript(response, "errorCode").error
    ensures Subscript(response, "errorCode").Ok? && !Subscript(response, "errorCode").value.JStr? ==>
              e == AttributeError
    ensures forall code :: Subscript(response, "errorCode") == Ok(JStr(code)) ==>
              if IsSystemCode(code) then e == Raised(JStr(InternalError))
              else if Table(code).Some? then e == Raised(JStr(Table(code).value))
              else e == (match Subscript(response, "errorDescr")
                         case Ok(descr) => Raised(descr)
                         case Err(f) => f)
  {
    match Subscript(response, "errorCode")
    case Err(f) => f
    case Ok(code) =>
      if !code.JStr? then AttributeError
      else if IsSystemCode(code.s) then Raised(JStr(InternalError))
      else match Table(code.s)
        case Some(message) => Raised(JStr(message))
        case None =>
          match Subscript(response, "errorDescr")
          case Ok(descr) => Raised(descr)
          case Err(f) => f
  }

  /** A failure envelope with the given code and description. */
  function FailureEnvelope(code: string, descr: string): Json
  {
    JObj(map["status" := JBool(false), "errorCode" := JStr(code), "errorDescr" := JStr(descr)])
  }

  /** The message `handle_error` raises for a well-formed failure envelope. */
  function Message(code: string, descr: string): (m: string)
    ensures HandleError(FailureEnvelope(code, descr)) == Raised(JStr(m))
  {
    if IsSystemCode(code) then InternalError
    else if Table(code).Some? then Table(code).value
    else descr
  }

  /** A system code is reported as the internal error, whatever the envelope describes. */
  lemma SystemCodeIgnoresDescription(code: string, descr1: string, descr2: string)
    requires IsSystemCode(code)
    ensures Message(code, descr1) == Message(code, descr2) == InternalError
  {
  }

  /** The table has an entry for `SExxx`, but the prefix rule is tried first; the entry says the same. */
  lemma SystemTableEntryShadowed(descr: string)
    ensures Table("SExxx") == Some(InternalError)
    ensures Message("SExxx", descr) == InternalError
  {
  }

  /** For a known code the message comes from the table, never from the envelope. */
  lemma TableCodeIgnoresDescription(code: string, descr1: string, descr2: string)
    requires Table(code).Some?
    ensures Message(code, descr1) == Message(code, descr2)
    ensures !IsSystemCode(code) ==> Message(code, descr1) == Table(code).value
  {
  }

  /** An unknown, non-system code reports the envelope's description verbatim. */
  lemma UnknownCodeFallsBack(code: string, descr: string)
    requires !IsSystemCode(code) && Table(code).None?
    ensures Message(code, descr) == descr
  {
  }

  /** BE005 is a table code; BE015 has no entry, so it falls back to the description. */
  lemma KnownAndUnknownExamples(descr: string)
    ensures Message("BE005", descr) == "userPasswordCheck: Invalid login or password."
    ensures Table("BE015") == None && Message("BE015", descr) == descr
  {
    assert !IsSystemCode("BE005") && !IsSystemCode("BE015");
    assert Table("BE005") == Some("userPasswordCheck: Invalid login or password.");
  }

  /** The message does not identify the code: BE016 and BE017 share theirs. */
  lemma TradeRequestMessageShared(descr: string)
    ensures Message("BE016", descr) == Message("BE017", descr) == "Too many trade requests"
  {
    assert Table("BE016") == Some("Too many trade requests");
    assert Table("BE017") == Some("Too many trade requests");
  }

  /** BE020 to BE037 and BE099 are all reported as "Other error". */
  lemma OtherErrorShared(descr: string)
    ensures Message("BE020", descr) == Message("BE037", descr) == "Other error"
    ensures Message("BE099", descr) == "Other error"
  {
    assert Table("BE020") == Some("Other error");
    assert Table("BE037") == Some("Other error");
    assert Table("BE099") == Some("Other error");
  }

  /** A system code and the internal-error table codes cannot be told apart by their message. */
  lemma InternalErrorShared(descr: string)
    ensures Message("SE123", descr) == Message("BE000", descr) == InternalError
    ensures Message("EX001", descr) == Message("EX002", descr) == InternalError
  {
    assert IsSystemCode("SE123") && !IsSystemCode("BE000") && !IsSystemCode("EX001") && !IsSystemCode("EX002");
    assert Table("BE000") == Some(InternalError);
    assert Table("EX001") == Some(InternalError);
    assert Table("EX002") == Some(InternalError);
  }
}
