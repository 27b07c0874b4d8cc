/**
 * The slice of PHP's dynamic values the transport layer passes around: business
 * payloads handed to the serializer, raw bodies returned by the network and
 * the values stored in request arguments.
 */
module Php {

  /**
   * A PHP value. Arrays are represented by their elements only (their keys
   * play no part in what this model checks); objects by an identity.
   */
  datatype PhpValue =
    | Null
    | Bool(b: bool)
    | Int(i: int)
    | Str(s: string)
    | Arr(elements: seq<PhpValue>)
    | Obj(id: nat)

  /**
   * PHP's loose comparison `v == null`. Against a string, null is converted
   * to "" and the two strings are compared, so "0" is NOT equal to null;
   * against any other value both sides are converted to bool.
   */
  predicate LooselyNull(v: PhpValue) {
    match v
    case Null => true
    case Bool(b) => !b
    case Int(i) => i == 0
    case Str(s) => s == ""
    case Arr(e) => |e| == 0
    case Obj(_) => false
  }
}
