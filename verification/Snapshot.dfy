/** Exactness of the snapshot the scheduler works on: every cached and every
    in-flight container of an engine is counted once. */
module Snapshot {
  import opened Seqs
  import opened Containers
  import opened Nodes
  import opened Placement

  /** The residents a view shows after considering some of the reservations. */
  ghost function ShownTags(s: State, id: string, order: seq<string>, keys: seq<string>): seq<Tag>
    requires id in s.engines && forall k :: k in keys ==> k in s.pending
  {
    if keys == [] then seq(|order|, i requires 0 <= i < |order| => Cached(order[i]))
    else
      var k := keys[|keys| - 1];
      ShownTags(s, id, order, keys[..|keys| - 1]) + if Unseen(s.engines[id], s.pending, k) then [InFlight(k)] else []
  }

  lemma {:induction false} ShownTagsMembers(s: State, id: string, order: seq<string>, keys: seq<string>)
    requires id in s.engines && forall k :: k in keys ==> k in s.pending
    ensures forall i :: Cached(i) in ShownTags(s, id, order, keys) <==> i in order
    ensures forall k :: InFlight(k) in ShownTags(s, id, order, keys) <==>
                        k in keys && Unseen(s.engines[id], s.pending, k)
  {
    var tags := ShownTags(s, id, order, keys);
    if keys == [] {
      forall i ensures Cached(i) in tags <==> i in order {
        if i in order {
          var j :| 0 <= j < |order| && order[j] == i;
          assert tags[j] == Cached(i);
        }
      }
    } else {
      ShownTagsMembers(s, id, order, keys[..|keys| - 1]);
      assert keys == keys[..|keys| - 1] + [keys[|keys| - 1]];
    }
  }

  ghost predicate Distinct<T(!new)>(xs: seq<T>) {
    forall i, j :: 0 <= i < j < |xs| ==> xs[i] != xs[j]
  }

  lemma {:induction false} ShownTagsDistinct(s: State, id: string, order: seq<string>, keys: seq<string>)
    requires id in s.engines && forall k :: k in keys ==> k in s.pending
    requires Distinct(order) && Distinct(keys)
    ensures Distinct(ShownTags(s, id, order, keys))
  {
    if keys != [] {
      var front, k := keys[..|keys| - 1], keys[|keys| - 1];
      ShownTagsDistinct(s, id, order, front);
      ShownTagsMembers(s, id, order, front);
      assert k !in front;
    }
  }

  /** A view matches a list of residents: the same containers, and their sums. */
  ghost predicate Matches(s: State, id: string, n: Node, tags: seq<Tag>)
    requires id in s.engines
  {
    && (forall t :: t in tags ==> t in Residents(s, id))
    && n.containers == At(Residents(s, id), tags)
    && n.usedMemory == SumSeq(n.containers, MemoryOf)
    && n.usedCpus == SumSeq(n.containers, CpusOf)
    && n.id == id && n.name == s.engines[id].name && n.labels == s.engines[id].labels
    && n.totalMemory == TotalMemory(s.engines[id])
    && n.totalCpus == TotalCpus(s.engines[id])
    && n.images == s.engines[id].images && n.healthIndicator == s.engines[id].healthIndicator
  }

  lemma NewNodeMatches(s: State, id: string, order: seq<string>)
    requires Core(s) && id in s.engines && Lists(order, s.engines[id].containers)
    ensures Matches(s, id, NodeOf(s.engines[id], order), ShownTags(s, id, order, []))
  {
    var e := s.engines[id];
    var tags := ShownTags(s, id, order, []);
    ShownTagsMembers(s, id, order, []);
    assert At(e.containers, order) == At(Residents(s, id), tags);
    SumListed(e.containers, order, MemoryOf);
    SumListed(e.containers, order, CpusOf);
  }

  lemma TagOf(s: State, id: string, n: Node, tags: seq<Tag>, c: Container) returns (t: Tag)
    requires id in s.engines && Matches(s, id, n, tags) && c in n.containers
    ensures t in tags && Resides(s.engines[id], s.pending, t) && Resident(s.engines[id], s.pending, t) == c
  {
    var j :| 0 <= j < |n.containers| && n.containers[j] == c;
    t := tags[j];
    assert t in Residents(s, id) && Residents(s, id)[t] == c;
  }

  lemma ShownMember(s: State, id: string, n: Node, tags: seq<Tag>, t: Tag)
    requires id in s.engines && Matches(s, id, n, tags) && t in tags
    ensures Resides(s.engines[id], s.pending, t) && Resident(s.engines[id], s.pending, t) in n.containers
  {
    var j :| 0 <= j < |tags| && tags[j] == t;
    assert t in Residents(s, id);
    assert n.containers[j] == Resident(s.engines[id], s.pending, t);
  }

  /** No resident is mistaken for the reservation k, and none carries its Swarm
      ID but k itself and what shows it. */
  lemma ResidentAnswers(s: State, id: string, t: Tag, k: string)
    requires Core(s) && NoCollisions(s) && id in s.engines && Resides(s.engines[id], s.pending, t)
    requires k in s.pending && s.pending[k].engineID == id && t != InFlight(k)
    ensures !Collides(Resident(s.engines[id], s.pending, t), k)
    ensures Resident(s.engines[id], s.pending, t).config.swarmID == k <==> t.Cached? && ShownAs(s.engines[id], t.id, k)
  {
    match t {
      case Cached(i) =>
        assert !Collides(s.engines[id].containers[i], k);
      case InFlight(j) =>
        assert PendingOk(s, j);
        assert !Collides(ToContainer(s.pending[j]), k);
    }
  }

  /** The lookup by Swarm ID finds exactly the reservations already shown. */
  lemma LookupFindsShown(s: State, id: string, order: seq<string>, keys: seq<string>, n: Node, k: string)
    requires Core(s) && NoCollisions(s) && id in s.engines
    requires Lists(order, s.engines[id].containers)
    requires forall j :: j in keys ==> j in s.pending
    requires Matches(s, id, n, ShownTags(s, id, order, keys))
    requires k in s.pending && k !in keys && s.pending[k].engineID == id
    ensures Lookup(n.containers, k) == None <==> Unseen(s.engines[id], s.pending, k)
  {
    var e, tags := s.engines[id], ShownTags(s, id, order, keys);
    ShownTagsMembers(s, id, order, keys);
    forall c | c in n.containers
      ensures !Collides(c, k) && (c.config.swarmID == k ==> Shows(e, k))
    {
      var t := TagOf(s, id, n, tags, c);
      ResidentAnswers(s, id, t, k);
    }
    assert PendingOk(s, k);
    LookupBySwarmID(n.containers, k);
    if Shows(e, k) {
      var i :| ShownAs(e, i, k);
      ShownMember(s, id, n, tags, Cached(i));
    }
  }

  lemma SumSnoc(cs: seq<Container>, c: Container, f: Container -> int)
    ensures SumSeq(cs + [c], f) == SumSeq(cs, f) + f(c)
  {
    assert (cs + [c])[..|cs|] == cs;
  }

  lemma AddMatches(s: State, id: string, n: Node, tags: seq<Tag>, k: string)
    requires id in s.engines && s.engines[id].id == id && Matches(s, id, n, tags)
    requires k in s.pending && Unseen(s.engines[id], s.pending, k) && PendingOk(s, k)
    ensures AddContainer(n, ToContainer(s.pending[k])).Ok?
    ensures Matches(s, id, AddContainer(n, ToContainer(s.pending[k])).value, tags + [InFlight(k)])
  {
    var r, c := Residents(s, id), ToContainer(s.pending[k]);
    assert Resides(s.engines[id], s.pending, InFlight(k));
    assert r[InFlight(k)] == c;
    assert At(r, tags + [InFlight(k)]) == At(r, tags) + [c];
    SumSnoc(n.containers, c, MemoryOf);
    SumSnoc(n.containers, c, CpusOf);
  }

  lemma ConsideredMatches(s: State, id: string, n: Node, tags: seq<Tag>, k: string)
    requires id in s.engines && s.engines[id].id == id && Matches(s, id, n, tags)
    requires k in s.pending && PendingOk(s, k)
    requires s.pending[k].engineID == id ==> (Lookup(n.containers, k) == None <==> Unseen(s.engines[id], s.pending, k))
    ensures Matches(s, id, Consider(n, s.pending[k]),
                    tags + if Unseen(s.engines[id], s.pending, k) then [InFlight(k)] else [])
  {
    assert tags + [] == tags;
    if Unseen(s.engines[id], s.pending, k) {
      AddMatches(s, id, n, tags, k);
    }
  }

  lemma ConsiderMatches(s: State, id: string, order: seq<string>, keys: seq<string>, n: Node, k: string)
    requires Core(s) && NoCollisions(s) && id in s.engines
    requires Lists(order, s.engines[id].containers)
    requires forall j :: j in keys ==> j in s.pending
    requires Matches(s, id, n, ShownTags(s, id, order, keys))
    requires k in s.pending && k !in keys
    ensures Matches(s, id, Consider(n, s.pending[k]),
                    ShownTags(s, id, order, keys) + if Unseen(s.engines[id], s.pending, k) then [InFlight(k)] else [])
  {
    assert PendingOk(s, k);
    if s.pending[k].engineID == id {
      LookupFindsShown(s, id, order, keys, n, k);
    }
    ConsideredMatches(s, id, n, ShownTags(s, id, order, keys), k);
  }

  lemma {:induction false} ConsiderAllMatches(s: State, id: string, order: seq<string>, keys: seq<string>)
    requires Core(s) && NoCollisions(s) && id in s.engines
    requires Lists(order, s.engines[id].containers)
    requires (forall k :: k in keys ==> k in s.pending) && Distinct(keys)
    ensures Matches(s, id, ConsiderAll(NodeOf(s.engines[id], order), s.pending, keys),
                    ShownTags(s, id, order, keys))
  {
    if keys == [] {
      NewNodeMatches(s, id, order);
    } else {
      var front, k := keys[..|keys| - 1], keys[|keys| - 1];
      ConsiderAllMatches(s, id, order, front);
      ConsiderMatches(s, id, order, front, ConsiderAll(NodeOf(s.engines[id], order), s.pending, front), k);
    }
  }

  /** What the scheduler sees of an engine is what the engine holds or has been
      promised: all of it, and nothing twice, in every visiting order. */
  ghost predicate Exact(s: State, id: string, n: Node)
    requires id in s.engines
  {
    var r := Residents(s, id);
    && (forall t :: t in r ==> r[t] in n.containers)
    && (forall c :: c in n.containers ==> exists t :: t in r && r[t] == c)
    && |n.containers| == |r|
    && n.usedMemory == Sum(r, MemoryOf)
    && n.usedCpus == Sum(r, CpusOf)
    && n.id == id && n.name == s.engines[id].name && n.labels == s.engines[id].labels
    && n.totalMemory == TotalMemory(s.engines[id])
    && n.totalCpus == TotalCpus(s.engines[id])
    && n.images == s.engines[id].images && n.healthIndicator == s.engines[id].healthIndicator
  }

  lemma ShownTagsListResidents(s: State, id: string, order: seq<string>, keys: seq<string>)
    requires id in s.engines && Lists(order, s.engines[id].containers) && Lists(keys, s.pending)
    ensures Lists(ShownTags(s, id, order, keys), Residents(s, id))
  {
    var r, tags := Residents(s, id), ShownTags(s, id, order, keys);
    ShownTagsMembers(s, id, order, keys);
    ShownTagsDistinct(s, id, order, keys);
    forall t ensures t in r <==> t in tags {
      assert t in r <==> Resides(s.engines[id], s.pending, t);
      match t {
        case Cached(i) =>
        case InFlight(k) =>
      }
    }
  }

  lemma MatchesIsExact(s: State, id: string, n: Node, tags: seq<Tag>)
    requires id in s.engines && Matches(s, id, n, tags) && Lists(tags, Residents(s, id))
    ensures Exact(s, id, n)
  {
    var r := Residents(s, id);
    SumListed(r, tags, MemoryOf);
    SumListed(r, tags, CpusOf);
    SizeListed(r, tags);
    forall t | t in r ensures r[t] in n.containers {
      ShownMember(s, id, n, tags, t);
    }
    forall c | c in n.containers ensures exists t :: t in r && r[t] == c {
      var t := TagOf(s, id, n, tags, c);
    }
  }

  lemma SnapshotIsExact(s: State, id: string, n: Node)
    requires Core(s) && NoCollisions(s)
    requires ListedOn(s, id, n)
    ensures Exact(s, id, n)
  {
    var order, keys :| ListedAs(s, id, n, order, keys);
    ConsiderAllMatches(s, id, order, keys);
    ShownTagsListResidents(s, id, order, keys);
    MatchesIsExact(s, id, n, ShownTags(s, id, order, keys));
  }
}
