/**
 * `Encrypter.compare` of src/utils/helpers/encrypter.js: two ordered presence
 * guards, then the verdict of bcrypt's comparison, passed through unchanged.
 */
module Helpers {

  import opened Errors
  import opened Js

  /** One consultation of the hash comparator, with its arguments. */
  datatype CompareCall = CompareCall(value: Value, hash: Value)

  /** `bcrypt.compare` as the encrypter awaits it: a boolean, or a rejection. */
  type Comparator = (Value, Value) -> Outcome<bool>

  /**
   * `compare(value, hash)`. The comparator is consulted exactly when both
   * arguments are truthy, once and with both arguments unchanged, and its
   * outcome is the result; otherwise the first falsy argument is reported.
   */
  function Compare(value: Value, hash: Value, bcryptCompare: Comparator): (r: Traced<bool, CompareCall>)
    ensures r.calls == [] <==> !Truthy(value) || !Truthy(hash)
    ensures r.calls != [] ==> r.calls == [CompareCall(value, hash)] && r.outcome == bcryptCompare(value, hash)
    ensures r.calls == [] ==> r.outcome == Throw(MissingParam(if Truthy(value) then "hash" else "value"))
  {
    if !Truthy(value) then
      Traced(Throw(MissingParam("value")), [])
    else if !Truthy(hash) then
      Traced(Throw(MissingParam("hash")), [])
    else
      Traced(bcryptCompare(value, hash), [CompareCall(value, hash)])
  }

  /** A falsy value is reported, whatever the hash and the comparator. */
  lemma MissingValueThrows(value: Value, hash: Value, bcryptCompare: Comparator)
    requires !Truthy(value)
    ensures Compare(value, hash, bcryptCompare) == Traced(Throw(MissingParam("value")), [])
  {
  }

  /** With a truthy value, a falsy hash is reported and nothing is compared. */
  lemma MissingHashThrows(value: Value, hash: Value, bcryptCompare: Comparator)
    requires Truthy(value) && !Truthy(hash)
    ensures Compare(value, hash, bcryptCompare) == Traced(Throw(MissingParam("hash")), [])
  {
  }

  /** When both are missing, the value is the one named. */
  lemma ValueCheckedFirst(value: Value, hash: Value, bcryptCompare: Comparator)
    requires !Truthy(value) && !Truthy(hash)
    ensures Compare(value, hash, bcryptCompare).outcome == Throw(MissingParam("value"))
  {
  }

  /** A failing guard makes the result independent of the comparator. */
  lemma GuardFailureIgnoresComparator(value: Value, hash: Value, c1: Comparator, c2: Comparator)
    requires !Truthy(value) || !Truthy(hash)
    ensures Compare(value, hash, c1) == Compare(value, hash, c2)
  {
  }

  /** With both present, the comparator's verdict, true or false, is the result. */
  lemma VerdictPassedThrough(value: Value, hash: Value, bcryptCompare: Comparator, verdict: bool)
    requires Truthy(value) && Truthy(hash)
    requires bcryptCompare(value, hash) == Return(verdict)
    ensures Compare(value, hash, bcryptCompare).outcome == Return(verdict)
  {
  }

  /** A rejection of the comparator propagates unchanged. */
  lemma RejectionPropagates(value: Value, hash: Value, bcryptCompare: Comparator, e: Error)
    requires Truthy(value) && Truthy(hash)
    requires bcryptCompare(value, hash) == Throw(e)
    ensures Compare(value, hash, bcryptCompare).outcome == Throw(e)
  {
  }
}
