/** The argument-collection idiom the engine uses twice: pop `n` values into
    a list, one `append(pop())` at a time, then reverse the list. */
module StackOps {

  /** `reversed(s)`: the elements of `s`, last first. */
  function Reverse<T>(s: seq<T>): (r: seq<T>)
    ensures |r| == |s|
    ensures forall i :: 0 <= i < |s| ==> r[i] == s[|s| - 1 - i]
  {
    if s == [] then [] else Reverse(s[1..]) + [s[0]]
  }

  /** The stack and the list after `n` rounds of `args.append(stack.pop())`,
      starting from stack `s` (top = last element) and an empty list. */
  function PopN<T>(s: seq<T>, n: nat): (r: (seq<T>, seq<T>))
    requires n <= |s|
    ensures r.0 == s[..|s| - n]
    ensures |r.1| == n
    ensures forall i :: 0 <= i < n ==> r.1[i] == s[|s| - 1 - i]
    decreases n
  {
    if n == 0 then (s, [])
    else
      var (rest, popped) := PopN(s, n - 1);
      (rest[..|rest| - 1], popped + [rest[|rest| - 1]])
  }

  /** Popping `n` values and reversing them gives back the top `n` values in
      the order they were pushed, and nothing else is lost. */
  lemma ArgsInCallOrder<T>(s: seq<T>, n: nat)
    requires n <= |s|
    ensures Reverse(PopN(s, n).1) == s[|s| - n..]
    ensures PopN(s, n).0 + Reverse(PopN(s, n).1) == s
  {
    var (rest, popped) := PopN(s, n);
    var args := Reverse(popped);
    assert |args| == n;
    forall i | 0 <= i < n
      ensures args[i] == s[|s| - n + i]
    {
      assert args[i] == popped[n - 1 - i];
    }
    assert args == s[|s| - n..];
    assert s == s[..|s| - n] + s[|s| - n..];
  }
}
