/**
 A hash chain: every link's hash covers its body and the previous link's hash.

 SHA-256 is modelled as injective and never all zeros, so a hash is the tree it was
 computed from and `Zero` is the genesis value.
 */
module HashChain {

  datatype Hash<B> = Zero | Sha(body: B, previous: Hash<B>)

  datatype Link<B> = Link(sequence: int, body: B, previous: Hash<B>, hash: Hash<B>)

  function LastHash<B>(links: seq<Link<B>>): Hash<B> {
    if links == [] then Zero else links[|links| - 1].hash
  }

  predicate LinkOk<B(==)>(links: seq<Link<B>>, i: nat)
    requires i < |links|
  {
    && links[i].sequence == i + 1
    && links[i].previous == LastHash(links[..i])
    && links[i].hash == Sha(links[i].body, links[i].previous)
  }

  predicate ChainOk<B(==)>(links: seq<Link<B>>) {
    forall i :: 0 <= i < |links| ==> LinkOk(links, i)
  }

  /** The link added to `links` by a writer that last saw them as `seen`. */
  function LinkAfter<B>(links: seq<Link<B>>, seen: seq<Link<B>>, body: B): Link<B> {
    Link(|links| + 1, body, LastHash(seen), Sha(body, LastHash(seen)))
  }

  function NextLink<B>(links: seq<Link<B>>, body: B): Link<B> {
    LinkAfter(links, links, body)
  }

  method VerifyLinks<B(==)>(links: seq<Link<B>>) returns (ok: bool)
    ensures ok <==> ChainOk(links)
  {
    var expectedPrevious: Hash<B>, expectedSequence := Zero, 1;
    for i := 0 to |links|
      invariant expectedPrevious == LastHash(links[..i]) && expectedSequence == i + 1
      invariant forall k :: 0 <= k < i ==> LinkOk(links, k)
    {
      var link := links[i];
      if link.sequence != expectedSequence || link.previous != expectedPrevious
         || link.hash != Sha(link.body, link.previous) {
        assert !LinkOk(links, i);
        return false;
      }
      expectedPrevious, expectedSequence := link.hash, expectedSequence + 1;
    }
    return true;
  }

  lemma {:induction false} LinkOkOfPrefix<B>(links: seq<Link<B>>, n: nat, i: nat)
    requires i < n <= |links|
    ensures LinkOk(links[..n], i) <==> LinkOk(links, i)
  {
    assert links[..n][..i] == links[..i];
  }

  lemma {:induction false} PrefixOk<B>(links: seq<Link<B>>, n: nat)
    requires ChainOk(links) && n <= |links|
    ensures ChainOk(links[..n])
  {
    forall i | 0 <= i < n
      ensures LinkOk(links[..n], i)
    {
      LinkOkOfPrefix(links, n, i);
    }
  }

  lemma {:induction false} AppendOk<B>(links: seq<Link<B>>, body: B)
    requires ChainOk(links)
    ensures ChainOk(links + [NextLink(links, body)])
  {
    var longer := links + [NextLink(links, body)];
    assert longer[..|links|] == links;
    forall i | 0 <= i < |longer|
      ensures LinkOk(longer, i)
    {
      if i < |links| {
        LinkOkOfPrefix(longer, |links|, i);
      }
    }
  }

  /** Tamper evidence: two chains that verify and end in the same hash agree link for link. */
  lemma {:induction false} SameLastHashSameChain<B>(a: seq<Link<B>>, b: seq<Link<B>>)
    requires ChainOk(a) && ChainOk(b) && LastHash(a) == LastHash(b)
    ensures a == b
    decreases |a|
  {
    if a == [] || b == [] {
      assert a != [] ==> LinkOk(a, |a| - 1);
      assert b != [] ==> LinkOk(b, |b| - 1);
    } else {
      var m, n := |a| - 1, |b| - 1;
      assert LinkOk(a, m) && LinkOk(b, n);
      PrefixOk(a, m);
      PrefixOk(b, n);
      SameLastHashSameChain(a[..m], b[..n]);
      assert a == a[..m] + [a[m]] && b == b[..n] + [b[n]];
    }
  }

  /** A link fits exactly when its writer had seen all of the chain. */
  lemma {:induction false} FitsExactlyWhenSeen<B>(links: seq<Link<B>>, seen: seq<Link<B>>, body: B)
    requires ChainOk(links) && seen <= links
    ensures ChainOk(links + [LinkAfter(links, seen, body)]) <==> seen == links
  {
    var longer := links + [LinkAfter(links, seen, body)];
    if seen == links {
      AppendOk(links, body);
    } else if ChainOk(longer) {
      assert LinkOk(longer, |links|) && longer[..|links|] == links;
      assert seen == links[..|seen|];
      PrefixOk(links, |seen|);
      SameLastHashSameChain(seen, links);
    }
  }

  /** A broken chain stays broken, whatever is added. */
  lemma {:induction false} BrokenStaysBroken<B>(links: seq<Link<B>>, longer: seq<Link<B>>)
    requires links <= longer && !ChainOk(links)
    ensures !ChainOk(longer)
  {
    if ChainOk(longer) {
      assert longer[..|links|] == links;
      PrefixOk(longer, |links|);
    }
  }

  /** In a chain that verifies, the next link's hash is new. */
  lemma {:induction false} NextHashIsNew<B>(links: seq<Link<B>>, body: B)
    requires ChainOk(links)
    ensures forall i :: 0 <= i < |links| ==> links[i].hash != NextLink(links, body).hash
  {
    forall i | 0 <= i < |links|
      ensures links[i].hash != NextLink(links, body).hash
    {
      assert LinkOk(links, i);
      if links[i].previous == LastHash(links) {
        PrefixOk(links, i);
        SameLastHashSameChain(links[..i], links);
      }
    }
  }
}
