/** The listener list of a skin as a value: where a listener first occurs, and
    what is left once its first registration is taken out
    (internal/config/styles.go, AddListener and RemoveListener). */
module Registry {

  /** The first position of l in ls, or -1 when l is not registered. */
  function IndexOf<L(==)>(ls: seq<L>, l: L): (r: int)
    ensures -1 <= r < |ls|
    ensures r == -1 <==> l !in ls
    ensures r != -1 ==> ls[r] == l && l !in ls[..r]
  {
    if ls == [] then -1
    else if ls[0] == l then 0
    else
      var k := IndexOf(ls[1..], l);
      assert ls == [ls[0]] + ls[1..];
      if k == -1 then -1
      else
        assert ls[..k + 1] == [ls[0]] + ls[1..][..k];
        k + 1
  }

  /** The list with the first registration of l taken out; the list itself
      when l is not registered. */
  function RemoveFirst<L(==)>(ls: seq<L>, l: L): (r: seq<L>)
    ensures l !in ls ==> r == ls
    ensures l in ls ==> |r| == |ls| - 1
    ensures multiset(r) == multiset(ls) - multiset{l}
  {
    if ls == [] then []
    else
      assert ls == [ls[0]] + ls[1..];
      if ls[0] == l then ls[1..]
      else [ls[0]] + RemoveFirst(ls[1..], l)
  }

  /** Taking out the first registration is splicing the list around the first
      position of l: the entries before it and after it keep their order. */
  lemma {:induction false} RemoveFirstIsSplice<L>(ls: seq<L>, l: L)
    requires l in ls
    ensures 0 <= IndexOf(ls, l) < |ls|
    ensures RemoveFirst(ls, l) == ls[..IndexOf(ls, l)] + ls[IndexOf(ls, l) + 1..]
  {
    if ls[0] != l {
      var rest := ls[1..];
      assert ls == [ls[0]] + rest;
      assert l in rest;
      RemoveFirstIsSplice(rest, l);
      var k := IndexOf(rest, l);
      assert IndexOf(ls, l) == k + 1;
      assert RemoveFirst(ls, l) == [ls[0]] + RemoveFirst(rest, l);
      ConsSplice(ls[0], rest, k);
    }
  }

  /** Splicing around position k + 1 of a list with a head is splicing its
      tail around position k. */
  lemma ConsSplice<L>(x: L, rest: seq<L>, k: int)
    requires 0 <= k < |rest|
    ensures [x] + (rest[..k] + rest[k + 1..]) == ([x] + rest)[..k + 1] + ([x] + rest)[k + 2..]
  {
    assert ([x] + rest)[..k + 1] == [x] + rest[..k];
    assert ([x] + rest)[k + 2..] == rest[k + 1..];
  }

  /** Removing a listener right after adding it undoes the addition when it was
      not registered before. */
  lemma {:induction false} RemoveAfterAddFresh<L>(ls: seq<L>, l: L)
    requires l !in ls
    ensures RemoveFirst(ls + [l], l) == ls
  {
    if ls == [] {
      assert ls + [l] == [l];
    } else {
      var rest := ls[1..];
      assert ls + [l] == [ls[0]] + (rest + [l]);
      RemoveAfterAddFresh(rest, l);
      assert ls == [ls[0]] + rest;
    }
  }

  /** When the listener was registered before, removing it right after adding
      it again takes out the earlier registration and keeps the new one last. */
  lemma {:induction false} RemoveAfterAddPresent<L>(ls: seq<L>, l: L)
    requires l in ls
    ensures RemoveFirst(ls + [l], l) == RemoveFirst(ls, l) + [l]
  {
    var rest := ls[1..];
    assert ls + [l] == [ls[0]] + (rest + [l]);
    if ls[0] == l {
      assert (ls + [l])[1..] == rest + [l];
    } else {
      assert ls == [ls[0]] + rest;
      assert l in rest;
      RemoveAfterAddPresent(rest, l);
    }
  }

  /** A listener registered once is gone after one removal; each removal takes
      out exactly one registration. */
  lemma RemoveFirstCount<L>(ls: seq<L>, l: L)
    ensures multiset(RemoveFirst(ls, l))[l] == if l in ls then multiset(ls)[l] - 1 else 0
    ensures multiset(ls)[l] == 1 ==> l !in RemoveFirst(ls, l)
  {
  }
}
