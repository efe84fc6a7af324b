/** An engine's container cache and its refresh: take the cached IDs, list the
    daemon, merge what the list and the inspections say, commit. */
module Refresh {
  import opened Seqs

  /** What the daemon says of a container when it lists and inspects it. */
  datatype Listed = Listed(id: string, summary: string)

  datatype Info = Info(config: string, restarting: bool)

  datatype Container = Container(summary: string, info: Info)

  /** A known container is inspected only on demand, or when it was last seen
      restarting; a new one always. */
  predicate Inspects(c: Listed, cache: map<string, Container>, full: bool) {
    c.id in cache ==> full || cache[c.id].info.restarting
  }

  /** The new entry of a listed container. inspected holds the containers whose
      inspection succeeds. */
  function Updated(c: Listed, cache: map<string, Container>, inspected: map<string, Info>,
                   full: bool): (r: Option<Container>)
    ensures r.None? <==> Inspects(c, cache, full) && c.id !in inspected
    ensures r.Some? ==> r.value.summary == c.summary
    ensures r.Some? ==> r.value.info == if Inspects(c, cache, full) then inspected[c.id] else cache[c.id].info
  {
    if c.id in cache && !full && !cache[c.id].info.restarting then Some(Container(c.summary, cache[c.id].info))
    else if c.id in inspected then Some(Container(c.summary, inspected[c.id]))
    else None
  }

  ghost predicate Distinct(listed: seq<Listed>) {
    forall i, j :: 0 <= i < j < |listed| ==> listed[i].id != listed[j].id
  }

  predicate Mentions(listed: seq<Listed>, id: string) {
    exists i :: 0 <= i < |listed| && listed[i].id == id
  }

  /** merged holds the new entries of the containers listed, and no others. */
  ghost predicate Merges(listed: seq<Listed>, cache: map<string, Container>, inspected: map<string, Info>, full: bool,
                         merged: map<string, Container>)
  {
    && (forall i :: 0 <= i < |listed| ==>
                      var u := Updated(listed[i], cache, inspected, full);
                      if u.Some? then listed[i].id in merged && merged[listed[i].id] == u.value
                      else listed[i].id !in merged)
    && (forall id :: id in merged ==> Mentions(listed, id))
  }

  /** What a refresh makes of the entry of a listed container. Its summary is the
      listed one. What was known of it otherwise stays, or is what the inspection
      says; if that fails, a known container keeps its entry as it was. */
  predicate Renewed(c: Listed, cache: map<string, Container>, inspected: map<string, Info>, full: bool,
                    cache': map<string, Container>)
  {
    if c.id in cache && !full && !cache[c.id].info.restarting then
      c.id in cache' && cache'[c.id] == Container(c.summary, cache[c.id].info)
    else if c.id in inspected then c.id in cache' && cache'[c.id] == Container(c.summary, inspected[c.id])
    else if c.id in cache then c.id in cache' && cache'[c.id] == cache[c.id]
    else c.id !in cache'
  }

  /** Listed containers are renewed, and nothing else stays. */
  ghost predicate Refreshes(listed: seq<Listed>, cache: map<string, Container>, inspected: map<string, Info>,
                            full: bool,
                            cache': map<string, Container>)
  {
    && (forall id :: id in cache' ==> Mentions(listed, id))
    && (forall i :: 0 <= i < |listed| ==> Renewed(listed[i], cache, inspected, full, cache'))
  }

  method MissingIDs(current: seq<string>, listed: seq<Listed>) returns (missing: set<string>)
    ensures forall id :: id in missing <==> id in current && !Mentions(listed, id)
  {
    var names: set<string> := {};
    for k := 0 to |listed|
      invariant forall id :: id in names <==> exists i :: 0 <= i < k && listed[i].id == id
    {
      names := names + {listed[k].id};
    }
    missing := {};
    for k := 0 to |current|
      invariant forall id :: id in missing <==> id in current[..k] && !Mentions(listed, id)
    {
      if current[k] !in names {
        missing := missing + {current[k]};
      }
    }
  }

  method Merge(listed: seq<Listed>, cache: map<string, Container>, inspected: map<string, Info>, full: bool)
    returns (merged: map<string, Container>)
    requires Distinct(listed)
    ensures Merges(listed, cache, inspected, full, merged)
  {
    merged := map[];
    for k := 0 to |listed|
      invariant forall i :: 0 <= i < k ==>
                              var u := Updated(listed[i], cache, inspected, full);
                              if u.Some? then listed[i].id in merged && merged[listed[i].id] == u.value
                              else listed[i].id !in merged
      invariant forall id :: id in merged ==> exists i :: 0 <= i < k && listed[i].id == id
    {
      var u := Updated(listed[k], cache, inspected, full);
      if u.Some? {
        merged := merged[listed[k].id := u.value];
      }
    }
  }

  /** The cache after a commit. */
  function Committed(cache: map<string, Container>, missing: set<string>,
                     merged: map<string, Container>): map<string, Container> {
    (cache - missing) + merged
  }

  class Engine {
    var containers: map<string, Container>

    constructor ()
      ensures containers == map[]
    {
      containers := map[];
    }

    method Delete(ids: set<string>)
      modifies this
      ensures containers == old(containers) - ids
    {
      var rest := ids;
      while rest != {}
        invariant rest <= ids && containers == old(containers) - (ids - rest)
        decreases |rest|
      {
        var id :| id in rest;
        containers, rest := containers - {id}, rest - {id};
      }
      assert ids - {} == ids;
    }

    method Store(merged: map<string, Container>)
      modifies this
      ensures containers == old(containers) + merged
    {
      var keys := Visit(merged);
      for k := 0 to |keys|
        invariant forall id :: id in containers <==> id in old(containers) || id in keys[..k]
        invariant forall id :: id in containers ==>
                                 containers[id] == if id in keys[..k] then merged[id] else old(containers)[id]
      {
        assert keys[..k + 1] == keys[..k] + [keys[k]];
        containers := containers[keys[k] := merged[keys[k]]];
      }
      assert keys[..|keys|] == keys;
    }

    method Commit(missing: set<string>, merged: map<string, Container>)
      modifies this
      ensures containers == Committed(old(containers), missing, merged)
    {
      Delete(missing);
      Store(merged);
    }

    /** A refresh that runs alone. */
    method RefreshContainers(listed: seq<Listed>, inspected: map<string, Info>, full: bool)
      requires Distinct(listed)
      modifies this
      ensures Refreshes(listed, old(containers), inspected, full, containers)
    {
      var current := Visit(containers);
      var missing := MissingIDs(current, listed);
      var merged := Merge(listed, containers, inspected, full);
      Commit(missing, merged);
    }

    /** A refresh of one container that runs alone, given the containers whose
        ID begins with id. More than one such container calls for a full pass. */
    method RefreshContainer(id: string, listed: seq<Listed>, all: seq<Listed>, inspected: map<string, Info>, full: bool)
      requires Distinct(all)
      modifies this
      ensures |listed| == 0 ==> containers == old(containers) - {id}
      ensures |listed| == 1 ==>
                && Renewed(listed[0], old(containers), inspected, full, containers)
                && containers - {listed[0].id} == old(containers) - {listed[0].id}
      ensures |listed| > 1 ==> Refreshes(all, old(containers), inspected, full, containers)
    {
      if |listed| > 1 {
        RefreshContainers(all, inspected, full);
      } else if |listed| == 0 {
        containers := containers - {id};
      } else {
        var u := Updated(listed[0], containers, inspected, full);
        if u.Some? {
          containers := containers[listed[0].id := u.value];
        }
      }
    }
  }

  /** With every inspection succeeding, a refresh that runs alone leaves exactly
      the containers listed. */
  lemma AloneIsExact(listed: seq<Listed>, cache: map<string, Container>, inspected: map<string, Info>, full: bool,
                     cache': map<string, Container>, id: string)
    requires Refreshes(listed, cache, inspected, full, cache')
    requires forall i :: 0 <= i < |listed| ==> listed[i].id in inspected
    ensures id in cache' <==> Mentions(listed, id)
  {
    if Mentions(listed, id) {
      var i :| 0 <= i < |listed| && listed[i].id == id;
      assert Renewed(listed[i], cache, inspected, full, cache');
    }
  }
}
