/** The optional value and the search by key used throughout. */
module Wrappers {
  datatype Option<+T> = None | Some(value: T)

  /** Where `id` first occurs as a key, or the length. */
  function FirstAt<T>(s: seq<T>, key: T -> string, id: string): (i: nat)
    ensures i <= |s|
    ensures i < |s| ==> key(s[i]) == id
    ensures forall j :: 0 <= j < i ==> key(s[j]) != id
  {
    if s == [] || key(s[0]) == id then 0
    else
      var i := 1 + FirstAt(s[1..], key, id);
      assert forall j :: 0 < j < i ==> s[j] == s[1..][j - 1];
      i
  }
}
