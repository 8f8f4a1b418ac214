/** Vocabulary shared by every module: optional values, client identities, the
    text-to-number conversion, and the few std::string searches the source uses. */
module Base {
  datatype Option<+T> = None | Some(value: T)

  /** Clients are compared by identity only, as the pointers in the source are. */
  type Client = nat

  /** std::stof is some partial function from text to numbers. Nothing is known
      about it here; None stands for the exception it throws on other text. */
  const STOF: string -> Option<real>

  function Stof(text: string): Option<real> { STOF(text) }

  function Abs(x: real): real { if x < 0.0 then -x else x }

  /** Position of the first c in s, or |s| for std::string::npos. */
  function FindFirst(s: string, c: char): (i: nat)
    ensures i <= |s| && forall k | 0 <= k < i :: s[k] != c
    ensures i < |s| ==> s[i] == c
  {
    if s == [] || s[0] == c then 0 else 1 + FindFirst(s[1..], c)
  }

  /** Position of the last c in s, or |s| for std::string::npos. */
  function FindLast(s: string, c: char): (i: nat)
    ensures i <= |s|
    ensures i < |s| ==> s[i] == c && forall k | i < k < |s| :: s[k] != c
    ensures i == |s| ==> forall k | 0 <= k < |s| :: s[k] != c
  {
    if s == [] then 0
    else if s[|s| - 1] == c then |s| - 1
    else
      var i := FindLast(s[..|s| - 1], c);
      if i == |s| - 1 then |s| else i
  }

  lemma FirstIs(s: string, c: char, i: nat)
    requires i <= |s| && (forall k | 0 <= k < i :: s[k] != c) && (i < |s| ==> s[i] == c)
    ensures FindFirst(s, c) == i
  {
    var j := FindFirst(s, c);
    assert !(j < i) && !(i < j);
  }
}
