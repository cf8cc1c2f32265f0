/** Values shared by every component of the model: optional values and JSON documents. */
module Common {

  datatype Option<+T> = None | Some(value: T)

  datatype Json =
    | JNull
    | JBool(b: bool)
    | JInt(i: int)
    | JReal(r: real)
    | JStr(s: string)
    | JArr(elems: seq<Json>)
    | JObj(fields: map<string, Json>)

  /** A loosely typed record: `Record<string, unknown>` on the wire. */
  type Record = map<string, Json>

  predicate Distinct<T(==)>(items: seq<T>) {
    forall i, j :: 0 <= i < j < |items| ==> items[i] != items[j]
  }

  /** The position at which an item first occurs. */
  function IndexOf<T(==)>(items: seq<T>, x: T): (i: nat)
    requires x in items
    ensures i < |items| && items[i] == x
  {
    if items[0] == x then 0 else 1 + IndexOf(items[1..], x)
  }

  /** A definition written `forall key {:trigger Open(key)} :: Open(key) ==> D` stands for `D`, and the verifier
      unfolds it only in proofs that mention `Open`. */
  predicate Open(key: nat) {
    key >= 0
  }
}
