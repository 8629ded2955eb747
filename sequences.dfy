/** Small sequence helpers shared by the model: reversal (cards come off the
    end of the shoe, so the draw order is the reverse of the removed suffix)
    and flattening (the cards of several hands taken together). */
module Sequences {

  function Last<T>(s: seq<T>): T
    requires s != []
  {
    s[|s| - 1]
  }

  /** The elements of `s` in the opposite order. */
  function Reversed<T>(s: seq<T>): (r: seq<T>)
    ensures |r| == |s|
    ensures forall i | 0 <= i < |s| :: r[i] == s[|s| - 1 - i]
  {
    if s == [] then [] else [s[|s| - 1]] + Reversed(s[..|s| - 1])
  }

  lemma ReversedAppend<T>(a: seq<T>, b: seq<T>)
    ensures Reversed(a + b) == Reversed(b) + Reversed(a)
  {
    var l, r := Reversed(a + b), Reversed(b) + Reversed(a);
    assert |l| == |r|;
    forall i | 0 <= i < |l| ensures l[i] == r[i] {
      if i < |b| {
        assert l[i] == (a + b)[|a| + |b| - 1 - i] == b[|b| - 1 - i];
      } else {
        assert l[i] == (a + b)[|a| + |b| - 1 - i] == a[|a| - 1 - (i - |b|)];
      }
    }
  }

  /** Taking `x` off the end of a stack whose earlier removals were `drawn`:
      the removals are now `drawn + [x]`. */
  lemma TakeFromEnd<T>(orig: seq<T>, rest: seq<T>, drawn: seq<T>, x: T)
    requires orig == rest + [x] + Reversed(drawn)
    ensures orig == rest + Reversed(drawn + [x])
  {
    assert (drawn + [x])[..|drawn|] == drawn;
  }

  /** The same for several elements taken off in the order `dealt`. */
  lemma TakeSeveralFromEnd<T>(orig: seq<T>, mid: seq<T>, rest: seq<T>, drawn: seq<T>, dealt: seq<T>)
    requires orig == mid + Reversed(drawn) && mid == rest + Reversed(dealt)
    ensures orig == rest + Reversed(drawn + dealt)
  {
    ReversedAppend(drawn, dealt);
  }

  lemma {:induction false} ReversedMultiset<T>(s: seq<T>)
    ensures multiset(Reversed(s)) == multiset(s)
  {
    if s != [] {
      ReversedMultiset(s[..|s| - 1]);
      assert s == s[..|s| - 1] + [s[|s| - 1]];
    }
  }

  /** What was taken off the end of a stack, in the order taken, and what
      is left make up the stack. */
  lemma TakenAndLeft<T>(orig: seq<T>, rest: seq<T>, drawn: seq<T>)
    requires orig == rest + Reversed(drawn)
    ensures multiset(drawn) + multiset(rest) == multiset(orig)
  {
    ReversedMultiset(drawn);
  }

  /** The concatenation of all the sequences in `ss`, in order. */
  function Flatten<T>(ss: seq<seq<T>>): seq<T>
  {
    if ss == [] then [] else Flatten(ss[..|ss| - 1]) + ss[|ss| - 1]
  }

  lemma {:induction false} FlattenAppend<T>(a: seq<seq<T>>, b: seq<seq<T>>)
    ensures Flatten(a + b) == Flatten(a) + Flatten(b)
  {
    if b != [] {
      assert (a + b)[..|a + b| - 1] == a + b[..|b| - 1];
      FlattenAppend(a, b[..|b| - 1]);
    } else {
      assert a + b == a;
    }
  }
}
