/** java.util.Stack as a sequence whose last element is the top. */
module Stacks {

  function Top<T>(s: seq<T>): T
    requires s != []
  {
    s[|s| - 1]
  }

  function Pop<T>(s: seq<T>): seq<T>
    requires s != []
  {
    s[..|s| - 1]
  }

  /** The order in which a stack's elements come off it. */
  function Reversed<T>(s: seq<T>): (r: seq<T>)
    ensures |r| == |s|
  {
    if s == [] then [] else [Top(s)] + Reversed(Pop(s))
  }

  lemma {:induction false} ReversedMultiset<T>(s: seq<T>)
    ensures multiset(Reversed(s)) == multiset(s)
  {
    if s != [] {
      ReversedMultiset(Pop(s));
      assert s == Pop(s) + [Top(s)];
    }
  }

  lemma {:induction false} ReversedElements<T>(s: seq<T>)
    ensures forall x :: x in Reversed(s) <==> x in s
  {
    ReversedMultiset(s);
    forall x ensures x in Reversed(s) <==> x in s {
      assert x in Reversed(s) <==> x in multiset(Reversed(s));
      assert x in s <==> x in multiset(s);
    }
  }

  /** Popping the top and then the rest reverses a split stack. */
  lemma {:induction false} ReversedPopTop<T>(s: seq<T>, k: nat)
    requires k < |s|
    ensures Reversed(s[k..]) == [Top(s)] + Reversed(Pop(s)[k..])
  {
    assert s[k..] != [] && Top(s[k..]) == Top(s);
    assert Pop(s[k..]) == Pop(s)[k..];
  }
}
