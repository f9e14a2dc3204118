/**
 * The error values that the core throws or lets propagate, and the `Invalid`
 * error class of src/utils/errors/invalid-param-error.js.
 */
module Errors {

  import opened Wrappers

  /**
   * What a `catch` clause or a rejected promise can receive.
   * `MissingParam` is `MissingParamError`, whose module is not part of this
   * model: only the parameter name it is built from is kept. Nothing in the
   * modelled code throws an `Invalid`, so it is not among these.
   * `TypeError` is what the JavaScript engine raises for a property read on
   * `undefined`/`null` or a call of something that is not a function.
   * `Raised` is an opaque failure of a collaborator, told apart by a tag.
   */
  datatype Error =
    | MissingParam(paramName: string)
    | TypeError
    | Raised(tag: nat)

  /** An instance of class `Invalid`: the two fields its constructor sets. */
  datatype Invalid = Invalid(message: string, name: string)

  /** The fixed text in front of the parameter name in an `Invalid` message. */
  const MessagePrefix: string := "Invalid param "

  /** The `name` every `Invalid` carries. */
  const InvalidName: string := "Invalid"

  /**
   * Matches `prefix` against the front of `s` character by character and
   * returns what follows it, or `None` when `s` does not start with `prefix`.
   */
  function DropPrefix(prefix: string, s: string): (r: Option<string>)
    decreases |s|
  {
    if prefix == [] then Some(s)
    else if s == [] || s[0] != prefix[0] then None
    else DropPrefix(prefix[1..], s[1..])
  }

  lemma {:induction false} DropPrefixOfConcat(prefix: string, rest: string)
    ensures DropPrefix(prefix, prefix + rest) == Some(rest)
    decreases prefix
  {
    if prefix != [] {
      assert (prefix + rest)[0] == prefix[0];
      assert (prefix + rest)[1..] == prefix[1..] + rest;
      DropPrefixOfConcat(prefix[1..], rest);
    } else {
      assert prefix + rest == rest;
    }
  }

  lemma {:induction false} DropPrefixSound(prefix: string, s: string)
    requires DropPrefix(prefix, s).Some?
    ensures s == prefix + DropPrefix(prefix, s).value
    decreases prefix
  {
    if prefix != [] {
      DropPrefixSound(prefix[1..], s[1..]);
      assert s == [s[0]] + s[1..];
    }
  }

  /** Recovers the parameter name from an `Invalid` message, if it has the format. */
  function ParamNameOf(message: string): (r: Option<string>) {
    DropPrefix(MessagePrefix, message)
  }

  /**
   * `new Invalid(paramName)`: the message is the prefix followed by the
   * parameter name, and the name is the constant "Invalid".
   */
  function NewInvalid(paramName: string): (e: Invalid)
    ensures e.name == InvalidName
    ensures ParamNameOf(e.message) == Some(paramName)
  {
    DropPrefixOfConcat(MessagePrefix, paramName);
    Invalid(MessagePrefix + paramName, InvalidName)
  }

  /** A message names `paramName` exactly when it is the message `new Invalid(paramName)` builds. */
  lemma InvalidMessageFormat(message: string, paramName: string)
    ensures ParamNameOf(message) == Some(paramName) <==> message == NewInvalid(paramName).message
  {
    if ParamNameOf(message) == Some(paramName) {
      DropPrefixSound(MessagePrefix, message);
    }
  }

  /** Distinct parameter names give distinct messages. */
  lemma InvalidMessagesDistinct(a: string, b: string)
    requires a != b
    ensures NewInvalid(a).message != NewInvalid(b).message
  {
  }

  /** The name does not depend on the parameter. */
  lemma InvalidNameConstant(a: string, b: string)
    ensures NewInvalid(a).name == NewInvalid(b).name == "Invalid"
  {
  }
}
