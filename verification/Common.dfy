/** Definitions that several modules share. */
module Common {

  datatype Option<+T> = None | Some(value: T)

  /** The states of a connection. */
  datatype Life = Connecting | Connected | Disconnecting | Disconnected

  function Reversed<T>(s: seq<T>): (r: seq<T>)
    ensures |r| == |s|
    ensures forall i :: 0 <= i < |s| ==> r[i] == s[|s| - 1 - i]
  {
    seq(|s|, i requires 0 <= i < |s| => s[|s| - 1 - i])
  }
}
