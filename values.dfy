/**
 * Value shapes shared by every part of the model: a JSON/YAML-like property
 * value (the property bags of deployment resources and Terraform blocks), and
 * the optional, result and outcome wrappers that stand for Go's error returns.
 */
module Values {

  /** A property value as the deployment and Terraform backends read it. */
  datatype Value =
    | Str(s: string)
    | Bool(b: bool)
    | Int(i: int)
    | List(items: seq<Value>)
    | Obj(fields: map<string, Value>)

  type Props = map<string, Value>

  datatype Option<+T> = None | Some(value: T)

  /** A value, or the text of the error Go would return instead. */
  datatype Result<+T> = Ok(value: T) | Err(error: string)

  /** A step that returns only an error (`error` in Go); Pass stands for nil. */
  datatype Outcome = Pass | Fail(error: string)

  /** A list of strings, as a property value. */
  function StrList(ss: seq<string>): (v: Value)
    ensures v.List? && |v.items| == |ss|
    ensures forall i :: 0 <= i < |ss| ==> v.items[i] == Str(ss[i])
  {
    List(seq(|ss|, i requires 0 <= i < |ss| => Str(ss[i])))
  }
}
