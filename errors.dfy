/**
 * The error codes of the package, the exceptions the drivers raise, and the message that
 * `ApexError.__str__` builds from a code and a cause.
 */
module Errors {
  import opened Text

  const COMMUNICATION: int := -1
  const BADCOMMAND: int := -2
  const ARGUMENT_TYPE: int := -11
  const ARGUMENT_VALUE: int := -12
  const SLOT_NOT_DEFINED: int := -151
  const SLOT_NOT_GOOD_TYPE: int := -152
  const SLOT_TYPE_NOT_DEFINED: int := -153
  const VARIABLE_NOT_DEFINED: int := -301

  /**
   * What a driver operation raises. `Apex` is `ApexError(code, cause)` with the cause already
   * turned into text by `str()`; the others are the Python built-in exceptions the code runs into.
   */
  datatype Failure =
    | Apex(code: int, cause: string)
    | TypeError(reason: string)
    | ValueError(reason: string)
    | NameError(name: string)
    | IndexError
    | UnboundLocalError(name: string)
    | StructError
    | ImportError(name: string)
    | AttributeError(name: string)
    | ZeroDivisionError
    | Etuve(code: int, cause: string)   // EtuveError(code, cause) of the separate PyEtuve package

  /** `ApexError()` with its default arguments: code 0 and cause `None`. */
  const DefaultError: Failure := Apex(0, "None")

  predicate KnownCode(code: int)
  {
    code in {COMMUNICATION, BADCOMMAND, ARGUMENT_TYPE, ARGUMENT_VALUE,
             SLOT_NOT_DEFINED, SLOT_NOT_GOOD_TYPE, SLOT_TYPE_NOT_DEFINED, VARIABLE_NOT_DEFINED}
  }

  const Prefix: string := "\nPyApex Error "

  /** The first line of every message: the code followed by " : ". */
  function Header(code: int): string
  {
    Prefix + IntToString(code) + " : "
  }

  /** `ApexError.__str__`. */
  function Message(code: int, cause: string): (msg: string)
    ensures Header(code) <= msg
  {
    Header(code) +
    if code == COMMUNICATION then "Communication with equipment " + cause + " cannot be established"
    else if code == BADCOMMAND then "Command '" + cause + "' can't be interpreted by the equipment"
    else if code == ARGUMENT_TYPE then "Wrong argument type for '" + cause + "'"
    else if code == ARGUMENT_VALUE then "Wrong argument value for '" + cause + "'"
    else if code == SLOT_NOT_DEFINED then "Slot n\U{00B0} " + cause + " has not a defined type"
    else if code == SLOT_NOT_GOOD_TYPE then "Slot n\U{00B0} " + cause + " has not the good type"
    else if code == SLOT_TYPE_NOT_DEFINED then "Slot n\U{00B0} " + cause + " has not the good type"
    else if code == VARIABLE_NOT_DEFINED then "Internal variable '" + cause + "' is not defined"
    else "Error code not defined"
  }

  /** The text of an exception: the message for an `ApexError`, a fixed name otherwise. */
  function Describe(f: Failure): string
  {
    match f
    case Apex(code, cause) => Message(code, cause)
    case TypeError(r) => "TypeError: " + r
    case ValueError(r) => "ValueError: " + r
    case NameError(n) => "NameError: name '" + n + "' is not defined"
    case IndexError => "IndexError"
    case UnboundLocalError(n) => "UnboundLocalError: " + n
    case StructError => "struct.error"
    case ImportError(n) => "ImportError: " + n
    case AttributeError(n) => "AttributeError: " + n
    case ZeroDivisionError => "ZeroDivisionError"
    case Etuve(code, cause) => "EtuveError " + IntToString(code) + ": " + cause
  }

  /** A code outside the table gets the fixed text, whatever the cause. */
  lemma UnknownCodeIgnoresCause(code: int, c1: string, c2: string)
    requires !KnownCode(code)
    ensures Message(code, c1) == Message(code, c2) == Header(code) + "Error code not defined"
  {
  }

  /** The default `ApexError()` reads "Error code not defined". */
  lemma DefaultErrorText()
    ensures Message(DefaultError.code, DefaultError.cause) == "\nPyApex Error 0 : Error code not defined"
  {
    UnknownCodeIgnoresCause(0, "None", "None");
    assert Header(0) == "\nPyApex Error 0 : " by {
      assert IntToString(0) == "0";
    }
  }

  /** The two slot-type codes print the same text after their headers. */
  lemma SlotTypeMessagesAgree(cause: string)
    ensures Message(SLOT_NOT_GOOD_TYPE, cause)[|Header(SLOT_NOT_GOOD_TYPE)|..]
         == Message(SLOT_TYPE_NOT_DEFINED, cause)[|Header(SLOT_TYPE_NOT_DEFINED)|..]
  {
  }

  /** Every known code prints its cause. */
  lemma KnownCodeShowsCause(code: int, cause: string)
    requires KnownCode(code)
    ensures Contains(Message(code, cause), cause)
  {
    var h := Header(code);
    if code == COMMUNICATION {
      CauseInside(h, "Communication with equipment ", cause, " cannot be established");
    } else if code == BADCOMMAND {
      CauseInside(h, "Command '", cause, "' can't be interpreted by the equipment");
    } else if code == ARGUMENT_TYPE {
      CauseInside(h, "Wrong argument type for '", cause, "'");
    } else if code == ARGUMENT_VALUE {
      CauseInside(h, "Wrong argument value for '", cause, "'");
    } else if code == VARIABLE_NOT_DEFINED {
      CauseInside(h, "Internal variable '", cause, "' is not defined");
    } else if code == SLOT_NOT_DEFINED {
      CauseInside(h, "Slot n\U{00B0} ", cause, " has not a defined type");
    } else {
      CauseInside(h, "Slot n\U{00B0} ", cause, " has not the good type");
    }
  }

  /** A text made of a header, a lead, the cause and a tail contains the cause. */
  lemma CauseInside(header: string, lead: string, cause: string, tail: string)
    ensures Contains(header + (lead + cause + tail), cause)
  {
    var msg := header + (lead + cause + tail);
    var i := |header| + |lead|;
    assert msg[i..i + |cause|] == cause;
    assert OccursAt(msg, cause, i);
    ContainsAt(msg, cause);
  }

  /** `str` is injective on integers. */
  lemma IntToStringInjective(a: int, b: int)
    requires IntToString(a) == IntToString(b)
    ensures a == b
  {
    if a < 0 {
      assert b < 0;
      assert IntToString(a)[1..] == NatToString(-a);
      assert IntToString(b)[1..] == NatToString(-b);
      NatToStringInjective(-a, -b);
    } else {
      assert b >= 0;
      NatToStringInjective(a, b);
    }
  }

  /** `str` is injective on natural numbers: the digits give the value back. */
  lemma NatToStringInjective(m: nat, n: nat)
    requires NatToString(m) == NatToString(n)
    ensures m == n
  {
    DigitsValueOfNatToString(m);
    DigitsValueOfNatToString(n);
  }

  /** The printed code never contains a space, so the header can be read back. */
  lemma IntToStringHasNoSpace(n: int)
    ensures ' ' !in IntToString(n)
  {
    var s := IntToString(n);
    forall k | 0 <= k < |s| ensures s[k] != ' ' {
      if n < 0 && k > 0 {
        assert s[k] == NatToString(-n)[k - 1];
      }
    }
  }

  /** A message identifies its code: two messages that are equal carry the same code. */
  lemma MessageDeterminesCode(c1: int, x1: string, c2: int, x2: string)
    requires Message(c1, x1) == Message(c2, x2)
    ensures c1 == c2
  {
    var a, b := IntToString(c1), IntToString(c2);
    var m := Message(c1, x1);
    IntToStringHasNoSpace(c1);
    IntToStringHasNoSpace(c2);
    assert Header(c1) <= m && Header(c2) <= m;
    var p := |Prefix|;
    assert m[p..p + |a|] == a;
    assert m[p..p + |b|] == b;
    assert m[p + |a|] == ' ';
    assert m[p + |b|] == ' ';
    assert a == b;
    IntToStringInjective(c1, c2);
  }
}
