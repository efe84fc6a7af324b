/** The two engine maps of the cluster, and the stretches of code that update
    them under the cluster lock. Engine objects are named by their number. */
module Membership {
  import opened Seqs

  /** An engine object; it has no ID until it is first connected. */
  datatype Engine = Engine(addr: string, id: string)

  datatype Registry = Registry(engines: map<string, nat>, pending: map<string, nat>, objs: seq<Engine>)

  const EMPTY := Registry(map[], map[], [])

  ghost predicate EngineAt(r: Registry, id: string, addr: string) {
    id in r.engines && r.engines[id] < |r.objs| && r.objs[r.engines[id]].addr == addr
  }

  /** Some engine, pending or registered, has this address. */
  ghost predicate Holds(r: Registry, addr: string) {
    addr in r.pending || exists id :: EngineAt(r, id, addr)
  }

  /** What a search by address may find. */
  ghost predicate Found(r: Registry, addr: string, o: nat) {
    if addr in r.pending then r.pending[addr] == o
    else exists id :: EngineAt(r, id, addr) && r.engines[id] == o
  }

  /** id was put together from the daemon's own ID and addr. */
  predicate IdFor(id: string, addr: string) {
    |id| > |addr| && id[|id| - |addr|..] == addr && id[|id| - |addr| - 1] == '|'
  }

  lemma JoinedIsIdFor(info: string, addr: string)
    ensures IdFor(info + "|" + addr, addr)
  {
    var id := info + "|" + addr;
    assert id[|id| - |addr|..] == addr;
  }

  lemma LongerHasBar(id: string, a: string, b: string)
    requires IdFor(id, a) && IdFor(id, b) && |a| < |b|
    ensures '|' in b
  {
    assert b[|b| - |a| - 1] == id[|id| - |a| - 1];
  }

  lemma IdTellsAddress(id: string, a: string, b: string)
    requires IdFor(id, a) && IdFor(id, b) && '|' !in a && '|' !in b
    ensures a == b
  {
    if |a| < |b| {
      LongerHasBar(id, a, b);
    } else if |b| < |a| {
      LongerHasBar(id, b, a);
    }
  }

  // ------------------------------------------------------ the locked sections

  /** A connection to engine o: its ID is set the first time and must stay the
      same afterwards. */
  function Learn(r: Registry, o: nat, info: string): (Registry, bool)
    requires o < |r.objs|
  {
    var e := r.objs[o];
    var id := info + "|" + e.addr;
    if e.id == "" then (r.(objs := r.objs[o := e.(id := id)]), true) else (r, e.id == id)
  }

  function Pend(r: Registry, addr: string): Registry {
    r.(pending := r.pending[addr := |r.objs|], objs := r.objs + [Engine(addr, "")])
  }

  datatype Outcome = NotPending | Conflict | Known | Registered

  /** The end of a validation of engine o. */
  function Promote(r: Registry, o: nat): (Registry, Outcome)
    requires o < |r.objs| && forall i :: i in r.engines ==> r.engines[i] < |r.objs|
  {
    var e := r.objs[o];
    if e.addr !in r.pending then (r, NotPending)
    else if e.id in r.engines then
      if r.objs[r.engines[e.id]].addr != e.addr then (r, Conflict)
      else (r.(pending := r.pending - {e.addr}), Known)
    else (r.(pending := r.pending - {e.addr}, engines := r.engines[e.id := o]), Registered)
  }

  /** The end of a removal of addr, whose search found engine o. */
  function Drop(r: Registry, addr: string, o: nat): Registry
    requires o < |r.objs|
  {
    if addr in r.pending then r.(pending := r.pending - {addr})
    else r.(engines := r.engines - {r.objs[o].id})
  }

  // -------------------------------------------------------- the invariant

  ghost predicate ObjOk(e: Engine) {
    '|' !in e.addr && (e.id == "" || IdFor(e.id, e.addr))
  }

  ghost predicate Consistent(r: Registry) {
    && (forall o :: 0 <= o < |r.objs| ==> ObjOk(r.objs[o]))
    && (forall a :: a in r.pending ==> r.pending[a] < |r.objs| && r.objs[r.pending[a]].addr == a)
    && (forall i :: i in r.engines ==> i != "" && r.engines[i] < |r.objs| && r.objs[r.engines[i]].id == i)
  }

  /** Nobody shares an address. */
  ghost predicate Unshared(r: Registry) {
    && (forall i, a :: EngineAt(r, i, a) ==> a !in r.pending)
    && (forall i, j, a :: EngineAt(r, i, a) && EngineAt(r, j, a) ==> i == j)
  }

  lemma LearnKeeps(r: Registry, o: nat, info: string)
    requires Consistent(r) && Unshared(r) && o < |r.objs|
    ensures var r' := Learn(r, o, info).0;
            Consistent(r') && Unshared(r') && forall a :: Holds(r', a) == Holds(r, a)
    ensures var r', id := Learn(r, o, info).0, info + "|" + r.objs[o].addr;
            && (Learn(r, o, info).1 <==> r'.objs[o].id == id)
            && (r.objs[o].id == "" ==> Learn(r, o, info).1)
  {
    var r' := Learn(r, o, info).0;
    JoinedIsIdFor(info, r.objs[o].addr);
    assert forall i, a :: EngineAt(r', i, a) == EngineAt(r, i, a);
  }

  lemma PendKeeps(r: Registry, addr: string)
    requires Consistent(r) && Unshared(r) && '|' !in addr && !Holds(r, addr)
    ensures var r' := Pend(r, addr);
            Consistent(r') && Unshared(r') && forall a :: Holds(r', a) <==> Holds(r, a) || a == addr
  {
    var r' := Pend(r, addr);
    assert forall i, a :: EngineAt(r', i, a) == EngineAt(r, i, a);
  }

  /** An ID leads to at most one address, so a pending engine finds its ID free. */
  lemma IdIsFree(r: Registry, o: nat)
    requires Consistent(r) && Unshared(r) && o < |r.objs| && r.objs[o].addr in r.pending
    ensures r.objs[o].id !in r.engines
  {
    var e := r.objs[o];
    if e.id in r.engines {
      var other := r.objs[r.engines[e.id]];
      IdTellsAddress(e.id, e.addr, other.addr);
      assert EngineAt(r, e.id, e.addr);
      assert false;
    }
  }

  lemma PromoteKeeps(r: Registry, o: nat)
    requires Consistent(r) && Unshared(r) && o < |r.objs| && r.objs[o].id != ""
    ensures var r' := Promote(r, o).0;
            Consistent(r') && Unshared(r') && forall a :: Holds(r', a) == Holds(r, a)
    ensures if r.objs[o].addr in r.pending then
              && Promote(r, o).1 == Registered && r.objs[o].addr !in Promote(r, o).0.pending
              && r.objs[o].id in Promote(r, o).0.engines && Promote(r, o).0.engines[r.objs[o].id] == o
            else Promote(r, o) == (r, NotPending)
  {
    var e := r.objs[o];
    if e.addr in r.pending {
      IdIsFree(r, o);
      var r' := Promote(r, o).0;
      assert EngineAt(r', e.id, e.addr);
      forall i, a ensures EngineAt(r', i, a) <==> EngineAt(r, i, a) || (i == e.id && a == e.addr) {
      }
      forall a ensures Holds(r', a) == Holds(r, a) {
        if a != e.addr && !(a in r.pending) {
          if i :| EngineAt(r', i, a) { assert EngineAt(r, i, a); }
          if i :| EngineAt(r, i, a) { assert EngineAt(r', i, a); }
        }
      }
    }
  }

  /** A removal misses when the address has left the pending map and the ID of
      the engine that was found is not registered. */
  predicate Misses(r: Registry, addr: string, o: nat)
    requires o < |r.objs|
  {
    addr !in r.pending && r.objs[o].id !in r.engines
  }

  lemma DropKeeps(r: Registry, addr: string, o: nat)
    requires Consistent(r) && Unshared(r) && o < |r.objs| && r.objs[o].addr == addr
    ensures var r' := Drop(r, addr, o);
            Consistent(r') && Unshared(r')
            && forall a :: Holds(r', a) <==> Holds(r, a) && (a != addr || Misses(r, addr, o))
  {
    var r' := Drop(r, addr, o);
    var id := r.objs[o].id;
    if addr !in r.pending && id in r.engines {
      var e := r.objs[r.engines[id]];
      IdTellsAddress(id, addr, e.addr);
      assert EngineAt(r, id, addr);
    }
    assert forall i, a :: EngineAt(r', i, a) ==> EngineAt(r, i, a);
    forall a ensures Holds(r', a) <==> Holds(r, a) && (a != addr || Misses(r, addr, o)) {
      if a !in r.pending {
        if i :| EngineAt(r, i, a) {
          assert i != id || addr in r.pending ==> EngineAt(r', i, a);
        }
      }
    }
  }

  // --------------------------------------------------------------- the class

  class Cluster {
    var engines: map<string, nat>
    var pendingEngines: map<string, nat>
    var objs: seq<Engine>

    constructor ()
      ensures Current() == EMPTY
    {
      engines, pendingEngines, objs := map[], map[], [];
    }

    function Current(): Registry
      reads this
    {
      Registry(engines, pendingEngines, objs)
    }

    method GetEngineByAddr(addr: string) returns (found: Option<nat>)
      requires Consistent(Current())
      ensures found.Some? ==> Found(Current(), addr, found.value)
      ensures found.None? ==> !Holds(Current(), addr)
    {
      if addr in pendingEngines {
        return Some(pendingEngines[addr]);
      }
      var keys := Visit(engines);
      for k := 0 to |keys|
        invariant forall j :: 0 <= j < k ==> !EngineAt(Current(), keys[j], addr)
      {
        var id := keys[k];
        if objs[engines[id]].addr == addr {
          assert EngineAt(Current(), id, addr);
          return Some(engines[id]);
        }
      }
      return None;
    }

    method Connect(o: nat, info: string) returns (ok: bool)
      requires o < |objs|
      modifies this`objs
      ensures (Current(), ok) == Learn(old(Current()), o, info)
    {
      var id := info + "|" + objs[o].addr;
      if objs[o].id == "" {
        objs := objs[o := objs[o].(id := id)];
        return true;
      }
      return objs[o].id == id;
    }

    method ValidatePendingEngine(o: nat) returns (outcome: Outcome)
      requires Consistent(Current()) && o < |objs|
      modifies this
      ensures (Current(), outcome) == Promote(old(Current()), o)
    {
      var e := objs[o];
      if e.addr !in pendingEngines {
        return NotPending;
      }
      if e.id in engines {
        if objs[engines[e.id]].addr != e.addr {
          return Conflict;
        }
        pendingEngines := pendingEngines - {e.addr};
        return Known;
      }
      pendingEngines := pendingEngines - {e.addr};
      engines := engines[e.id := o];
      return Registered;
    }

    /** An addition that nothing interrupts. */
    method AddEngine(addr: string) returns (added: bool)
      requires Consistent(Current()) && Unshared(Current()) && '|' !in addr
      modifies this
      ensures Consistent(Current()) && Unshared(Current())
      ensures added <==> !Holds(old(Current()), addr)
      ensures Current() == if added then Pend(old(Current()), addr) else old(Current())
      ensures forall a :: Holds(Current(), a) <==> Holds(old(Current()), a) || a == addr
    {
      var found := GetEngineByAddr(addr);
      if found.Some? {
        return false;
      }
      PendKeeps(Current(), addr);
      pendingEngines, objs := pendingEngines[addr := |objs|], objs + [Engine(addr, "")];
      return true;
    }

    /** A removal that nothing interrupts. */
    method RemoveEngine(addr: string) returns (removed: bool)
      requires Consistent(Current()) && Unshared(Current())
      modifies this
      ensures Consistent(Current()) && Unshared(Current())
      ensures removed <==> Holds(old(Current()), addr)
      ensures forall a :: Holds(Current(), a) <==> Holds(old(Current()), a) && a != addr
    {
      var found := GetEngineByAddr(addr);
      if found.None? {
        return false;
      }
      var o := found.value;
      ghost var before := Current();
      DropKeeps(before, addr, o);
      if addr in pendingEngines {
        pendingEngines := pendingEngines - {addr};
      } else {
        engines := engines - {objs[o].id};
      }
      assert Current() == Drop(before, addr, o);
      return true;
    }

    method RemoveEngines(addrs: seq<string>)
      requires Consistent(Current()) && Unshared(Current())
      modifies this
      ensures Consistent(Current()) && Unshared(Current())
      ensures forall a :: Holds(Current(), a) <==> Holds(old(Current()), a) && a !in addrs
    {
      for k := 0 to |addrs|
        invariant Consistent(Current()) && Unshared(Current())
        invariant forall a :: Holds(Current(), a) <==> Holds(old(Current()), a) && a !in addrs[..k]
      {
        var _ := RemoveEngine(addrs[k]);
        assert addrs[..k + 1] == addrs[..k] + [addrs[k]];
      }
      assert addrs[..|addrs|] == addrs;
    }

    method AddEngines(addrs: seq<string>)
      requires Consistent(Current()) && Unshared(Current())
      requires forall a :: a in addrs ==> '|' !in a
      modifies this
      ensures Consistent(Current()) && Unshared(Current())
      ensures forall a :: Holds(Current(), a) <==> Holds(old(Current()), a) || a in addrs
    {
      for k := 0 to |addrs|
        invariant Consistent(Current()) && Unshared(Current())
        invariant forall a :: Holds(Current(), a) <==> Holds(old(Current()), a) || a in addrs[..k]
      {
        var _ := AddEngine(addrs[k]);
        assert addrs[..k + 1] == addrs[..k] + [addrs[k]];
      }
      assert addrs[..|addrs|] == addrs;
    }

    /** One discovery update that nothing interrupts: removals come first. */
    method Follow(current: seq<string>, entries: seq<string>)
      requires Consistent(Current()) && Unshared(Current())
      requires forall a :: a in entries ==> '|' !in a
      modifies this
      ensures Consistent(Current()) && Unshared(Current())
      ensures forall a :: a in current ==> (Holds(Current(), a) <==> a in entries && Holds(old(Current()), a))
      ensures forall a :: a !in current ==> (Holds(Current(), a) <==> a in entries || Holds(old(Current()), a))
    {
      var added, removed := Diff(current, entries);
      RemoveEngines(removed);
      AddEngines(added);
    }
  }

  /** What a discovery update adds and removes. */
  method Diff(current: seq<string>, entries: seq<string>) returns (added: seq<string>, removed: seq<string>)
    ensures added == Missing(entries, current) && removed == Missing(current, entries)
    ensures forall a :: a in added <==> a in entries && a !in current
    ensures forall a :: a in removed <==> a in current && a !in entries
  {
    added, removed := [], [];
    for k := 0 to |entries|
      invariant added == Missing(entries[..k], current)
    {
      KeepSnoc(entries, k, Outside(current));
      if entries[k] !in current {
        added := added + [entries[k]];
      }
    }
    for k := 0 to |current|
      invariant removed == Missing(current[..k], entries)
    {
      KeepSnoc(current, k, Outside(entries));
      if current[k] !in entries {
        removed := removed + [current[k]];
      }
    }
    assert entries[..|entries|] == entries && current[..|current|] == current;
    KeepMembers(entries, Outside(current));
    KeepMembers(current, Outside(entries));
  }

  function Outside(s: seq<string>): string -> bool {
    a => a !in s
  }

  function Missing(s: seq<string>, from: seq<string>): seq<string> {
    Keep(s, Outside(from))
  }
}
