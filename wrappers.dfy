/** Optional values and results with an error message, standing in for C#'s
    nullable references and for the exceptions the services throw. */
module Wrappers {

  datatype Option<+T> = None | Some(value: T) {
    function GetOr(default: T): T {
      match this
      case Some(v) => v
      case None => default
    }
  }

  /** `Err(message)` carries the `Message` of the exception the source throws. */
  datatype Result<+T> = Ok(value: T) | Err(message: seq<char>)

  /** A row-table lookup by key: the first index whose key is `id`, or -1. */
  function IndexOf<T>(rows: seq<T>, key: T -> int, id: int): (r: int)
    ensures -1 <= r < |rows|
    ensures r >= 0 ==> key(rows[r]) == id && forall i :: 0 <= i < r ==> key(rows[i]) != id
    ensures r < 0 ==> forall i :: 0 <= i < |rows| ==> key(rows[i]) != id
  {
    if |rows| == 0 then -1
    else if key(rows[0]) == id then 0
    else
      var r := IndexOf(rows[1..], key, id);
      if r < 0 then -1 else r + 1
  }

  /** `rows` without the element at index `i`. */
  function RemoveAt<T>(rows: seq<T>, i: nat): (r: seq<T>)
    requires i < |rows|
    ensures |r| == |rows| - 1
    ensures forall k :: 0 <= k < i ==> r[k] == rows[k]
    ensures forall k :: i <= k < |r| ==> r[k] == rows[k + 1]
    ensures multiset(r) + multiset{rows[i]} == multiset(rows)
  {
    assert rows == rows[..i] + [rows[i]] + rows[i + 1..];
    rows[..i] + rows[i + 1..]
  }
}
