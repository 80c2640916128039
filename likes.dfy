/**
  The like list of a post or a comment and the optimistic flip both hooks
  apply to it: remove every occurrence of the acting user when present,
  otherwise append the user at the end.
*/
module Likes {

  /** `likes.filter((id) => id !== u)`. */
  function Without(likes: seq<string>, u: string): (r: seq<string>)
    ensures u !in r
    ensures forall x :: x != u ==> multiset(r)[x] == multiset(likes)[x]
    ensures |r| <= |likes|
  {
    if likes == [] then []
    else
      assert likes == [likes[0]] + likes[1..];
      (if likes[0] == u then [] else [likes[0]]) + Without(likes[1..], u)
  }

  /** Filtering keeps the order of what it keeps: it distributes over
      concatenation. */
  lemma {:induction false} WithoutAppend(a: seq<string>, b: seq<string>, u: string)
    ensures Without(a + b, u) == Without(a, u) + Without(b, u)
  {
    if a != [] {
      assert (a + b)[1..] == a[1..] + b;
      WithoutAppend(a[1..], b, u);
    } else {
      assert a + b == b;
    }
  }

  /** Filtering out a user who is not there changes nothing. */
  lemma {:induction false} WithoutAbsent(likes: seq<string>, u: string)
    requires u !in likes
    ensures Without(likes, u) == likes
  {
    if likes != [] {
      WithoutAbsent(likes[1..], u);
    }
  }

  /** The optimistic like toggle of one record. */
  function FlipLike(likes: seq<string>, u: string): (r: seq<string>)
    ensures u in r <==> u !in likes
    ensures u !in likes ==> r == likes + [u]
    ensures forall x :: x != u ==> multiset(r)[x] == multiset(likes)[x]
  {
    if u in likes then Without(likes, u) else likes + [u]
  }

  /** Two flips restore the user's membership; when the user was absent
      they restore the list exactly. */
  lemma FlipTwice(likes: seq<string>, u: string)
    ensures u in FlipLike(FlipLike(likes, u), u) <==> u in likes
    ensures u !in likes ==> FlipLike(FlipLike(likes, u), u) == likes
  {
    if u !in likes {
      WithoutAppend(likes, [u], u);
      WithoutAbsent(likes, u);
      assert Without([u], u) == [];
    }
  }
}
