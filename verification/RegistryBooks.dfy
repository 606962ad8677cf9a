/** What the hostname registry's operations do when nothing else happens at the same time:
    the one specification of the class `Registry` and of the operations that RegistryOps
    takes apart into steps. */
module RegistryBooks {
  import opened Text
  import opened RegistryOps

  /** The claimed names, and the names of each registered client in list order. */
  datatype Books = Books(claimed: set<Host>, names: seq<set<Host>>)

  /** Every claimed name belongs to exactly one registered client, and no other name does. */
  ghost predicate Sound(b: Books) {
    && (forall i, j :: 0 <= i < j < |b.names| ==> b.names[i] !! b.names[j])
    && (forall h :: h in b.claimed <==> exists i :: 0 <= i < |b.names| && h in b.names[i])
  }

  function Joined(b: Books): Books {
    b.(names := b.names + [{}])
  }

  function Claimed(b: Books, i: nat, h: Host): Books
    requires i < |b.names|
  {
    if h in b.claimed then b else Books(b.claimed + {h}, b.names[i := b.names[i] + {h}])
  }

  function Released(b: Books, i: nat, h: Host): Books
    requires i < |b.names|
  {
    if h !in b.names[i] then b else Books(b.claimed - {h}, b.names[i := b.names[i] - {h}])
  }

  function Left(b: Books, i: nat): Books
    requires i < |b.names|
  {
    Books(b.claimed - b.names[i], SwapRemove(b.names, i))
  }

  /** The first client in the list that has the name. */
  function FirstWith(names: seq<set<Host>>, h: Host): (r: Option<nat>)
    ensures r.Some? ==> r.value < |names| && h in names[r.value]
    ensures r.None? ==> forall i :: 0 <= i < |names| ==> h !in names[i]
  {
    if names == [] then None
    else if h in names[0] then Some(0)
    else match FirstWith(names[1..], h)
         case Some(i) => Some(i + 1)
         case None => None
  }

  lemma ClaimedSound(b: Books, i: nat, h: Host)
    requires Sound(b) && i < |b.names|
    ensures Sound(Claimed(b, i, h))
    ensures h !in b.claimed ==> FirstWith(Claimed(b, i, h).names, h) == Some(i)
  {
    var b' := Claimed(b, i, h);
    if h !in b.claimed {
      assert h in b'.names[i];
      forall g | g in b'.claimed ensures exists k :: 0 <= k < |b'.names| && g in b'.names[k] {
        if g != h {
          var k :| 0 <= k < |b.names| && g in b.names[k];
          assert g in b'.names[k];
        }
      }
    }
  }

  lemma ReleasedSound(b: Books, i: nat, h: Host)
    requires Sound(b) && i < |b.names|
    ensures Sound(Released(b, i, h))
    ensures h in b.names[i] ==> FirstWith(Released(b, i, h).names, h) == None && h !in Released(b, i, h).claimed
  {
    var b' := Released(b, i, h);
    if h in b.names[i] {
      forall g | g in b'.claimed ensures exists k :: 0 <= k < |b'.names| && g in b'.names[k] {
        var k :| 0 <= k < |b.names| && g in b.names[k];
        assert g in b'.names[k];
      }
    }
  }

  /** `swap_remove` drops one element and keeps all others. */
  lemma SwapRemoveKeeps<T>(xs: seq<T>, i: nat)
    requires i < |xs|
    ensures var ys := SwapRemove(xs, i);
            && |ys| == |xs| - 1
            && (forall k :: 0 <= k < |ys| ==> ys[k] == xs[if k == i then |xs| - 1 else k])
  {
  }

  lemma SwapRemoveBag<T>(xs: seq<T>, i: nat)
    requires i < |xs|
    ensures multiset(SwapRemove(xs, i)) == multiset(xs) - multiset{xs[i]}
  {
    var init, last := xs[..|xs| - 1], xs[|xs| - 1];
    assert xs == init + [last];
    if i < |init| {
      assert SwapRemove(xs, i) == init[i := last];
      ReplacedBag(init, i, last);
    } else {
      assert SwapRemove(xs, i) == init;
    }
  }

  lemma ReplacedBag<T>(xs: seq<T>, i: nat, x: T)
    requires i < |xs|
    ensures multiset(xs[i := x]) == multiset(xs) - multiset{xs[i]} + multiset{x}
  {
  }

  lemma LeftSound(b: Books, i: nat)
    requires Sound(b) && i < |b.names|
    ensures Sound(Left(b, i))
    ensures forall h :: h in b.names[i] ==> h !in Left(b, i).claimed
    ensures forall k :: 0 <= k < |b.names| && k != i ==> b.names[k] <= Left(b, i).claimed
  {
    var b' := Left(b, i);
    SwapRemoveKeeps(b.names, i);
    forall g | g in b'.claimed ensures exists k :: 0 <= k < |b'.names| && g in b'.names[k] {
      var k :| 0 <= k < |b.names| && g in b.names[k];
      assert g in b'.names[if k == |b.names| - 1 then i else k];
    }
  }

  /** Among sound books lookup and the claimed set agree. */
  lemma FirstWithIffClaimed(b: Books, h: Host)
    requires Sound(b)
    ensures FirstWith(b.names, h).Some? <==> h in b.claimed
    ensures forall i :: 0 <= i < |b.names| && h in b.names[i] ==> FirstWith(b.names, h) == Some(i)
  {
  }

  lemma JoinedSound(b: Books)
    requires Sound(b)
    ensures Sound(Joined(b))
  {
    forall h | h in b.claimed ensures exists i :: 0 <= i < |Joined(b).names| && h in Joined(b).names[i] {
      var i :| 0 <= i < |b.names| && h in b.names[i];
      assert h in Joined(b).names[i];
    }
  }

  /** Releasing what one has just claimed restores the books. */
  lemma ReleaseUndoesClaim(b: Books, i: nat, h: Host)
    requires Sound(b) && i < |b.names| && h !in b.claimed
    ensures h in Claimed(b, i, h).names[i] && Released(Claimed(b, i, h), i, h) == b
  {
    var b1 := Claimed(b, i, h);
    assert h !in b.names[i];
    assert Released(b1, i, h).names == b.names;
  }
}
