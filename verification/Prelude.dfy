/** Types shared by every component. */
module Prelude {

  datatype Option<+T> = None | Some(value: T) {

    function GetOr(default: T): T
    {
      if Some? then value else default
    }
  }

  function Reverse<T>(s: seq<T>): (r: seq<T>)
    ensures |r| == |s|
    ensures forall i :: 0 <= i < |s| ==> r[i] == s[|s| - 1 - i]
  {
    if s == [] then [] else Reverse(s[1..]) + [s[0]]
  }
}
