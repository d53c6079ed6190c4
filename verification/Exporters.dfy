/** Exporter ids: the exporters table, the bounded id cache in front of it, and the per-batch
    resolution both SQL backends run. Every statement autocommits, so a failure half way leaves
    the statements before it in effect. */
module Exporters {
  import opened Basics

  /** Addresses are opaque. Times are nanoseconds. */
  type Addr = nat

  datatype Exporter = Exporter(id: nat, firstSeen: int, lastSeen: int)

  datatype Seen = Seen(addr: Addr, at: int)

  type Table = map<Addr, Exporter>

  const CACHE_CAP := 4096

  function Max(a: int, b: int): int { if a < b then b else a }

  // ---------------------------------------------------------------- statements

  /** INSERT ... ON CONFLICT (ip_address) DO UPDATE SET last_seen_at = GREATEST(...) RETURNING id */
  function Upsert(t: Table, newId: nat, a: Addr, at: int): Table {
    if a in t then t[a := t[a].(lastSeen := Max(t[a].lastSeen, at))] else t[a := Exporter(newId, at, at)]
  }

  /** UPDATE exporters SET last_seen_at = at WHERE id = id AND last_seen_at < at */
  function Touch(t: Table, id: nat, at: int): Table {
    map a | a in t :: if t[a].id == id && t[a].lastSeen < at then t[a].(lastSeen := at) else t[a]
  }

  ghost predicate UniqueIds(t: Table) {
    forall a, b :: a in t && b in t && t[a].id == t[b].id ==> a == b
  }

  ghost predicate IdsBelow(t: Table, n: nat) { forall a :: a in t ==> t[a].id < n }

  lemma UpsertIds(t: Table, newId: nat, a: Addr, at: int)
    requires UniqueIds(t) && IdsBelow(t, newId)
    ensures var t' := Upsert(t, newId, a, at); UniqueIds(t') && IdsBelow(t', newId + 1)
    ensures a in t ==> IdsBelow(Upsert(t, newId, a, at), newId)
    ensures a in Upsert(t, newId, a, at)
  {
  }

  /** Cache transparency: touching by a cached id has the effect of the upsert it replaces. */
  lemma TouchIsUpsert(t: Table, a: Addr, at: int, newId: nat)
    requires UniqueIds(t) && a in t
    ensures Touch(t, t[a].id, at) == Upsert(t, newId, a, at)
  {
  }

  // ---------------------------------------------------------------- what a batch asks for

  /** The latest truncated time of each exporter in a batch. */
  ghost predicate Latest(seen: map<Addr, int>, batch: seq<Seen>) {
    && (forall a :: a in seen <==> exists i :: 0 <= i < |batch| && batch[i].addr == a)
    && (forall a :: a in seen ==> exists i :: 0 <= i < |batch| && batch[i].addr == a && seen[a] == Micro(batch[i].at))
    && (forall i :: 0 <= i < |batch| ==> batch[i].addr in seen && Micro(batch[i].at) <= seen[batch[i].addr])
  }

  /** The comparison is made between an untruncated and a truncated time; the maximum of the
      truncated times comes out all the same. */
  method LatestPerExporter(batch: seq<Seen>) returns (seen: map<Addr, int>)
    ensures Latest(seen, batch)
  {
    seen := map[];
    assert Latest(seen, batch[..0]);
    hide Latest;
    for n := 0 to |batch|
      invariant Latest(seen, batch[..n])
    {
      var r := batch[n];
      ghost var was := seen;
      if r.addr !in seen || r.at > seen[r.addr] {
        seen := seen[r.addr := Micro(r.at)];
      }
      LatestExtends(was, batch[..n], r, seen);
      assert batch[..n + 1] == batch[..n] + [r];
    }
    assert batch[..|batch|] == batch;
  }

  lemma LatestExtends(seen: map<Addr, int>, b: seq<Seen>, r: Seen, seen': map<Addr, int>)
    requires Latest(seen, b)
    requires seen' == if r.addr !in seen || r.at > seen[r.addr] then seen[r.addr := Micro(r.at)] else seen
    ensures Latest(seen', b + [r])
  {
    var b' := b + [r];
    assert b'[|b|] == r;
    forall a | a in seen'
      ensures exists i :: 0 <= i < |b'| && b'[i].addr == a && seen'[a] == Micro(b'[i].at)
    {
      if a in seen && seen'[a] == seen[a] {
        var i :| 0 <= i < |b| && b[i].addr == a && seen[a] == Micro(b[i].at);
        assert b'[i] == b[i];
      } else {
        assert b'[|b|].addr == a;
      }
    }
    LatestDominates(seen, b, r, seen');
  }

  lemma LatestDominates(seen: map<Addr, int>, b: seq<Seen>, r: Seen, seen': map<Addr, int>)
    requires Latest(seen, b)
    requires seen' == if r.addr !in seen || r.at > seen[r.addr] then seen[r.addr := Micro(r.at)] else seen
    ensures forall s :: s in b + [r] ==> s.addr in seen' && Micro(s.at) <= seen'[s.addr]
  {
    if r.addr in seen {
      var k :| 0 <= k < |b| && b[k].addr == r.addr && seen[r.addr] == Micro(b[k].at);
      Truncation(r.at, b[k].at);
    }
    hide Micro;
    forall s | s in b ensures s.addr in seen' && Micro(s.at) <= seen'[s.addr] {
      var i :| 0 <= i < |b| && b[i] == s;
    }
  }

  /** Comparing a time with a truncated one decides how their truncations compare. */
  lemma Truncation(x: int, t: int)
    ensures if x > Micro(t) then Micro(x) >= Micro(t) else Micro(x) <= Micro(t)
  {
    assert x == x / 1000 * 1000 + x % 1000 && t == t / 1000 * 1000 + t % 1000;
    assert Micro(x) == x / 1000 * 1000 && Micro(t) == t / 1000 * 1000;
  }

  /** The table after the exporters in `done` were resolved: ids and first_seen_at are kept,
      last_seen_at is the maximum, and nobody else is touched. */
  ghost predicate Resolved(t0: Table, t: Table, seen: map<Addr, int>, done: set<Addr>) {
    && (forall a :: a in t0 ==> a in t && t[a].id == t0[a].id && t[a].firstSeen == t0[a].firstSeen)
    && (forall a :: a in done ==> a in seen && a in t)
    && (forall a :: a in done ==> t[a].lastSeen == if a in t0 then Max(t0[a].lastSeen, seen[a]) else seen[a])
    && (forall a :: a in done && a !in t0 ==> t[a].firstSeen == seen[a])
    && (forall a :: a in t && a !in done ==> a in t0 && t[a] == t0[a])
  }

  lemma ResolvedStep(t0: Table, t: Table, seen: map<Addr, int>, done: set<Addr>, a: Addr, newId: nat)
    requires Resolved(t0, t, seen, done) && a in seen && a !in done
    ensures Resolved(t0, Upsert(t, newId, a, seen[a]), seen, done + {a})
  {
    var t' := Upsert(t, newId, a, seen[a]);
    forall b | b in t0 ensures b in t' && t'[b].id == t0[b].id && t'[b].firstSeen == t0[b].firstSeen {
      assert b in t;
    }
  }

  // ---------------------------------------------------------------- histories

  /** The exporters row a batch history must leave behind: the maximum of everything asked for. */
  function LastSeen(asks: seq<Seen>, a: Addr): Option<int> {
    if asks == [] then None
    else
      var s, rest := asks[|asks| - 1], LastSeen(asks[..|asks| - 1], a);
      if s.addr != a then rest
      else if rest.None? then Some(s.at)
      else Some(Max(rest.value, s.at))
  }

  ghost predicate Records(t: Table, asks: seq<Seen>) {
    forall a :: (a in t <==> LastSeen(asks, a).Some?) && (a in t ==> Some(t[a].lastSeen) == LastSeen(asks, a))
  }

  lemma UpsertRecords(t: Table, asks: seq<Seen>, newId: nat, a: Addr, at: int)
    requires Records(t, asks)
    ensures Records(Upsert(t, newId, a, at), asks + [Seen(a, at)])
  {
    var asks' := asks + [Seen(a, at)];
    assert asks'[..|asks|] == asks;
    forall b ensures LastSeen(asks', b) ==
      (if b != a then LastSeen(asks, b)
       else if LastSeen(asks, a).None? then Some(at) else Some(Max(LastSeen(asks, a).value, at))) {
    }
  }

  /** What `LastSeen` is: the latest time asked for, if any. */
  lemma {:induction false} LastSeenIsMaximum(asks: seq<Seen>, a: Addr)
    ensures LastSeen(asks, a).None? <==> forall s :: s in asks ==> s.addr != a
    ensures LastSeen(asks, a).Some? ==> Seen(a, LastSeen(asks, a).value) in asks
    ensures forall s :: s in asks && s.addr == a ==> LastSeen(asks, a).Some? && s.at <= LastSeen(asks, a).value
  {
    if asks != [] {
      var front, last := asks[..|asks| - 1], asks[|asks| - 1];
      LastSeenIsMaximum(front, a);
      assert asks == front + [last];
    }
  }

  /** Neither order nor repetition of the asks matters. */
  lemma SameElements(x: seq<Seen>, y: seq<Seen>, a: Addr)
    requires forall s :: s in x <==> s in y
    ensures LastSeen(x, a) == LastSeen(y, a)
  {
    LastSeenIsMaximum(x, a);
    LastSeenIsMaximum(y, a);
  }

  /** Upserting every ask in turn, with no cache in between. */
  function AlwaysUpsert(t: Table, newId: nat, asks: seq<Seen>): Table {
    if asks == [] then t
    else
      var s := asks[|asks| - 1];
      Upsert(AlwaysUpsert(t, newId, asks[..|asks| - 1]), newId + |asks| - 1, s.addr, s.at)
  }

  lemma {:induction false} AlwaysUpsertRecords(newId: nat, asks: seq<Seen>)
    ensures Records(AlwaysUpsert(map[], newId, asks), asks)
  {
    if asks != [] {
      var front, s := asks[..|asks| - 1], asks[|asks| - 1];
      AlwaysUpsertRecords(newId, front);
      UpsertRecords(AlwaysUpsert(map[], newId, front), front, newId + |asks| - 1, s.addr, s.at);
      assert front + [Seen(s.addr, s.at)] == asks;
    }
  }

  /** One call for a batch, as it went: the exporters in `done` were resolved before an error, or
      all of them. */
  datatype Call = Call(batch: seq<Seen>, done: set<Addr>)

  /** The records whose exporter was resolved, with truncated times. */
  function Served(c: Call): seq<Seen> {
    ServedUpTo(c.batch, c.done)
  }

  function ServedUpTo(batch: seq<Seen>, done: set<Addr>): seq<Seen> {
    if batch == [] then []
    else
      var s := batch[|batch| - 1];
      ServedUpTo(batch[..|batch| - 1], done) + if s.addr in done then [Seen(s.addr, Micro(s.at))] else []
  }

  /** All records a history of calls served, one by one. */
  function ServedAll(calls: seq<Call>): seq<Seen> {
    if calls == [] then [] else ServedAll(calls[..|calls| - 1]) + Served(calls[|calls| - 1])
  }

  lemma {:induction false} ServedHas(batch: seq<Seen>, done: set<Addr>, s: Seen)
    ensures s in ServedUpTo(batch, done) <==>
            s.addr in done && exists i :: 0 <= i < |batch| && batch[i].addr == s.addr && s.at == Micro(batch[i].at)
  {
    if batch != [] {
      var front, last := batch[..|batch| - 1], batch[|batch| - 1];
      ServedHas(front, done, s);
      if exists i :: 0 <= i < |front| && front[i].addr == s.addr && s.at == Micro(front[i].at) {
        var i :| 0 <= i < |front| && front[i].addr == s.addr && s.at == Micro(front[i].at);
        assert batch[i] == front[i];
      }
      if exists i :: 0 <= i < |batch| && batch[i].addr == s.addr && s.at == Micro(batch[i].at) {
        var i :| 0 <= i < |batch| && batch[i].addr == s.addr && s.at == Micro(batch[i].at);
        assert i < |front| ==> front[i] == batch[i];
      }
    }
  }

  /** The asks of one call: exactly one per resolved exporter, at its latest time in the batch. */
  ghost predicate AsksFor(asked: seq<Seen>, seen: map<Addr, int>, done: set<Addr>) {
    multiset(asked) == multiset(Pairs(seen, done))
  }

  ghost function Pairs(seen: map<Addr, int>, done: set<Addr>): set<Seen> {
    set a | a in done && a in seen :: Seen(a, seen[a])
  }

  lemma AsksForNext(asked: seq<Seen>, seen: map<Addr, int>, done: set<Addr>, a: Addr)
    requires AsksFor(asked, seen, done) && a in seen && a !in done
    ensures AsksFor(asked + [Seen(a, seen[a])], seen, done + {a})
  {
    assert Pairs(seen, done + {a}) == Pairs(seen, done) + {Seen(a, seen[a])};
    assert Seen(a, seen[a]) !in Pairs(seen, done);
  }

  lemma AsksElements(asked: seq<Seen>, seen: map<Addr, int>, done: set<Addr>, s: Seen)
    requires AsksFor(asked, seen, done)
    ensures s in asked <==> s.addr in done && s.addr in seen && s.at == seen[s.addr]
  {
    assert s in asked <==> s in multiset(asked);
    assert s in Pairs(seen, done) <==> s in multiset(Pairs(seen, done));
  }

  /** Whatever order a call takes the exporters in, every last_seen_at ends up the same. */
  lemma OrderIrrelevant(t: Table, u: Table, before: seq<Seen>, x: seq<Seen>, y: seq<Seen>,
                        seen: map<Addr, int>, done: set<Addr>)
    requires AsksFor(x, seen, done) && AsksFor(y, seen, done)
    requires Records(t, before + x) && Records(u, before + y)
    ensures SameLastSeen(t, u)
  {
    hide Records, LastSeen;
    forall s ensures s in before + x <==> s in before + y {
      AsksElements(x, seen, done, s);
      AsksElements(y, seen, done, s);
    }
    forall a ensures LastSeen(before + x, a) == LastSeen(before + y, a) {
      SameElements(before + x, before + y, a);
    }
    SameRecords(t, u, before + x, before + y);
  }

  lemma AskedLast(asked: seq<Seen>, seen: map<Addr, int>, done: set<Addr>, a: Addr)
    requires AsksFor(asked, seen, done) && done <= seen.Keys
    ensures LastSeen(asked, a) == if a in done then Some(seen[a]) else None
  {
    hide AsksFor;
    LastSeenIsMaximum(asked, a);
    if a in done { AsksElements(asked, seen, done, Seen(a, seen[a])); }
    if LastSeen(asked, a).Some? { AsksElements(asked, seen, done, Seen(a, LastSeen(asked, a).value)); }
  }

  lemma ServedLast(seen: map<Addr, int>, c: Call, a: Addr)
    requires Latest(seen, c.batch) && c.done <= seen.Keys
    ensures LastSeen(Served(c), a) == if a in c.done then Some(seen[a]) else None
  {
    hide LastSeen, Micro;
    LastSeenIsMaximum(Served(c), a);
    if a in c.done { ServedHas(c.batch, c.done, Seen(a, seen[a])); }
    if LastSeen(Served(c), a).Some? { ServedHas(c.batch, c.done, Seen(a, LastSeen(Served(c), a).value)); }
  }

  /** One ask per exporter stores what one ask per record would have. */
  lemma OneAskPerExporter(asked: seq<Seen>, seen: map<Addr, int>, c: Call, a: Addr)
    requires Latest(seen, c.batch) && c.done <= seen.Keys && AsksFor(asked, seen, c.done)
    ensures LastSeen(asked, a) == LastSeen(Served(c), a)
  {
    AskedLast(asked, seen, c.done, a);
    ServedLast(seen, c, a);
  }

  lemma {:induction false} LastSeenAppend(x: seq<Seen>, y: seq<Seen>, a: Addr)
    ensures LastSeen(x + y, a) == Later(LastSeen(x, a), LastSeen(y, a))
  {
    if y == [] {
      assert x + y == x;
    } else {
      assert (x + y)[..|x + y| - 1] == x + y[..|y| - 1];
      LastSeenAppend(x, y[..|y| - 1], a);
    }
  }

  function Later(x: Option<int>, y: Option<int>): Option<int> {
    match (x, y)
    case (None, r) => r
    case (l, None) => l
    case (Some(l), Some(r)) => Some(Max(l, r))
  }

  /** Exporters and their last_seen_at are the same in both tables. */
  ghost predicate SameLastSeen(t: Table, u: Table) {
    t.Keys == u.Keys && forall a :: a in t ==> t[a].lastSeen == u[a].lastSeen
  }

  ghost predicate SameAsks(x: seq<Seen>, y: seq<Seen>) {
    forall a :: LastSeen(x, a) == LastSeen(y, a)
  }

  lemma SameRecords(t: Table, u: Table, x: seq<Seen>, y: seq<Seen>)
    requires Records(t, x) && Records(u, y)
    requires SameAsks(x, y)
    ensures SameLastSeen(t, u)
  {
    forall a ensures a in t <==> a in u { assert LastSeen(x, a) == LastSeen(y, a); }
    forall a | a in t ensures t[a].lastSeen == u[a].lastSeen { assert LastSeen(x, a) == LastSeen(y, a); }
  }

  // ---------------------------------------------------------------- the backend

  class Backend {
    var table: Table
    var nextId: nat
    var cache: map<Addr, nat>
    /** History: every (exporter, time) a statement has carried, in statement order. */
    ghost var asks: seq<Seen>

    ghost predicate Valid()
      reads this
    {
      && UniqueIds(table)
      && IdsBelow(table, nextId)
      && IdsAgree(cache, table)
      && |cache| <= 4096
      && Records(table, asks)
    }

    constructor ()
      ensures Valid() && table == map[] && cache == map[]
    {
      table, nextId, cache, asks := map[], 0, map[], [];
    }

    /** A full cache is cleared rather than grown. */
    method Remember(a: Addr, id: nat)
      requires Valid() && a in table && id == table[a].id
      modifies this`cache
      ensures Valid() && a in cache
      ensures cache == if |old(cache)| >= 4096 then map[a := id] else old(cache)[a := id]
    {
      hide Records, UniqueIds, IdsBelow;
      if |cache| >= CACHE_CAP {
        cache := map[];
      }
      assert cache[a := id].Keys == cache.Keys + {a};
      cache := cache[a := id];
    }

    method TouchCached(a: Addr, last: int) returns (id: nat)
      requires Valid() && a in cache
      modifies this
      ensures Valid() && nextId == old(nextId) && cache == old(cache)
      ensures a in table && id == table[a].id
      ensures table == Upsert(old(table), old(nextId), a, last)
      ensures asks == old(asks) + [Seen(a, last)]
    {
      UpsertRecords(table, asks, nextId, a, last);
      UpsertIds(table, nextId, a, last);
      IdsStay(cache, table, nextId, a, last);
      TouchIsUpsert(table, a, last, nextId);
      id := cache[a];
      hide Records, UniqueIds, IdsBelow;
      table := Touch(table, id, last);
      asks := asks + [Seen(a, last)];
    }

    method UpsertRow(a: Addr, last: int) returns (id: nat)
      requires Valid()
      modifies this
      ensures Valid() && nextId == old(nextId) + 1 && cache == old(cache)
      ensures a in table && id == table[a].id
      ensures table == Upsert(old(table), old(nextId), a, last)
      ensures asks == old(asks) + [Seen(a, last)]
    {
      UpsertRecords(table, asks, nextId, a, last);
      UpsertIds(table, nextId, a, last);
      IdsStay(cache, table, nextId, a, last);
      hide Records, UniqueIds, IdsBelow, IdsAgree;
      table := Upsert(table, nextId, a, last);
      nextId := nextId + 1;
      id := table[a].id;
      asks := asks + [Seen(a, last)];
    }

    /** The statement for one exporter: touch it by its cached id, or upsert it. */
    method TouchOrUpsert(a: Addr, last: int) returns (id: nat, hit: bool)
      requires Valid()
      modifies this
      ensures Valid() && cache == old(cache) && hit == (a in cache)
      ensures nextId == old(nextId) + if hit then 0 else 1
      ensures a in table && id == table[a].id
      ensures table == Upsert(old(table), old(nextId), a, last)
      ensures asks == old(asks) + [Seen(a, last)]
    {
      hide Records, UniqueIds, IdsBelow, IdsAgree, Upsert;
      hit := a in cache;
      if hit {
        id := TouchCached(a, last);
      } else {
        id := UpsertRow(a, last);
      }
    }

    /** One exporter of a batch. A new id is remembered, unless the answer that carries it is lost. */
    method ResolveOne(a: Addr, last: int, ending: Ending) returns (ok: bool, id: nat)
      requires Valid()
      modifies this
      ensures Valid() && nextId >= old(nextId) && ok == (ending == Well)
      ensures ending == Undone ==> table == old(table) && asks == old(asks)
      ensures ending != Undone ==>
                table == Upsert(old(table), old(nextId), a, last) && asks == old(asks) + [Seen(a, last)]
      ensures ok ==> a in table && id == table[a].id && a in cache && cache[a] == id
      ensures a in old(cache) ==> cache == old(cache) && nextId == old(nextId)
    {
      hide Records, UniqueIds, IdsBelow, Upsert;
      if ending == Undone {
        return false, 0;
      }
      var n, hit := TouchOrUpsert(a, last);
      if ending == Unconfirmed {
        return false, 0;
      }
      if !hit {
        Remember(a, n);
      }
      return true, n;
    }

    /** The exporters in `seen`, in whatever order the map yields them. `how` says how statements end
        that do not end well; the first one reached ends the call with an error. `done` are the
        exporters whose statement took effect: those in `ids`, and one more if its answer was lost. */
    method ResolveSeen(seen: map<Addr, int>, how: map<Addr, Ending>)
      returns (ok: bool, ids: map<Addr, nat>, ghost done: set<Addr>, ghost asked: seq<Seen>)
      requires Valid()
      modifies this
      ensures Valid()
      ensures Progress(old(table), table, seen, ids, done, asked) && asks == old(asks) + asked
      ensures ids.Keys <= done <= seen.Keys
      ensures done != ids.Keys ==> exists a :: a in how && how[a] == Unconfirmed && done == ids.Keys + {a}
      ensures ok ==> ids.Keys == seen.Keys
      ensures how == map[] ==> ok
    {
      ids, asked, done := map[], [], {};
      var todo := seen.Keys;
      hide Records, UniqueIds, IdsBelow, IdsAgree, Upsert, AsksFor, Resolved, Progress;
      NothingYet(table, seen);
      while todo != {}
        invariant Valid() && todo <= seen.Keys && ids.Keys == seen.Keys - todo == done
        invariant Progress(old(table), table, seen, ids, done, asked) && asks == old(asks) + asked
        decreases todo
      {
        var a :| a in todo;
        var ending := if a in how then how[a] else Well;
        ghost var before, newId := table, nextId;
        var well, id := ResolveOne(a, seen[a], ending);
        if ending != Undone {
          ProgressStep(old(table), before, newId, seen, ids, done, asked, a);
          done, asked := done + {a}, asked + [Seen(a, seen[a])];
        }
        if !well {
          return false, ids, done, asked;
        }
        IdFound(old(table), table, seen, ids, done, asked, a, id);
        assert ids[a := id].Keys == ids.Keys + {a};
        ids := ids[a := id];
        todo := todo - {a};
      }
      ok := true;
    }

    /** All exporters of a batch. */
    method ResolveExporters(batch: seq<Seen>, how: map<Addr, Ending>)
      returns (ok: bool, ids: map<Addr, nat>, ghost seen: map<Addr, int>, ghost done: set<Addr>, ghost asked: seq<Seen>)
      requires Valid()
      modifies this
      ensures Valid() && Latest(seen, batch)
      ensures Progress(old(table), table, seen, ids, done, asked) && asks == old(asks) + asked
      ensures ids.Keys <= done <= seen.Keys
      ensures done != ids.Keys ==> exists a :: a in how && how[a] == Unconfirmed && done == ids.Keys + {a}
      ensures ok ==> ids.Keys == seen.Keys
      ensures how == map[] ==> ok
    {
      var latest := LatestPerExporter(batch);
      seen := latest;
      ok, ids, done, asked := ResolveSeen(latest, how);
    }

    /** One batch of a history, with the cache emptied before it or not. */
    method ServeBatch(batch: seq<Seen>, how: map<Addr, Ending>, clear: bool, ghost calls: seq<Call>)
      returns (ghost c: Call)
      requires Valid() && SameAsks(asks, ServedAll(calls))
      modifies this
      ensures Valid() && SameAsks(asks, ServedAll(calls + [c]))
      ensures c.batch == batch
      ensures how == map[] ==> forall s :: s in batch ==> s.addr in c.done
    {
      hide Records, UniqueIds, IdsBelow, IdsAgree, AsksFor, SameAsks, Resolved;
      if clear {
        ClearCache();
      }
      ghost var before := asks;
      var ok, ids, seen, done, asked := ResolveExporters(batch, how);
      c := Call(batch, done);
      ServedExtends(before, asked, calls, c, seen);
    }

    /** A history of batches, each possibly cut short by an error, with the cache emptied before any
        of them: the table is, up to ids, what upserting every served record on its own stores. */
    method ServeHistory(batches: seq<seq<Seen>>, how: seq<map<Addr, Ending>>, clear: seq<bool>)
      returns (ghost calls: seq<Call>)
      requires Valid() && asks == [] && |how| == |clear| == |batches|
      modifies this
      ensures Valid() && |calls| == |batches|
      ensures forall k :: 0 <= k < |calls| ==> calls[k].batch == batches[k]
      ensures forall k, s :: 0 <= k < |calls| && how[k] == map[] && s in batches[k] ==> s.addr in calls[k].done
      ensures SameLastSeen(table, AlwaysUpsert(map[], 0, ServedAll(calls)))
    {
      calls := [];
      hide Records, UniqueIds, IdsBelow, IdsAgree, AlwaysUpsert;
      for n := 0 to |batches|
        invariant Valid() && |calls| == n && SameAsks(asks, ServedAll(calls))
        invariant forall k :: 0 <= k < n ==> calls[k].batch == batches[k]
        invariant forall k, s :: 0 <= k < n && how[k] == map[] && s in batches[k] ==> s.addr in calls[k].done
      {
        ghost var c := ServeBatch(batches[n], how[n], clear[n], calls);
        calls := calls + [c];
      }
      AlwaysUpsertRecords(0, ServedAll(calls));
      SameRecords(table, AlwaysUpsert(map[], 0, ServedAll(calls)), asks, ServedAll(calls));
    }

    method ClearCache()
      requires Valid()
      modifies this`cache
      ensures Valid() && cache == map[]
    {
      cache := map[];
    }
  }

  lemma ServedExtends(asks: seq<Seen>, asked: seq<Seen>, calls: seq<Call>, c: Call, seen: map<Addr, int>)
    requires SameAsks(asks, ServedAll(calls))
    requires Latest(seen, c.batch) && c.done <= seen.Keys && AsksFor(asked, seen, c.done)
    ensures SameAsks(asks + asked, ServedAll(calls + [c]))
  {
    assert (calls + [c])[..|calls|] == calls;
    hide Latest, AsksFor;
    forall a ensures LastSeen(asks + asked, a) == LastSeen(ServedAll(calls + [c]), a) {
      LastSeenAppend(asks, asked, a);
      LastSeenAppend(ServedAll(calls), Served(c), a);
      OneAskPerExporter(asked, seen, c, a);
    }
  }

  /** Every id used is the exporters table's. */
  ghost predicate IdsAgree(ids: map<Addr, nat>, t: Table) {
    forall a :: a in ids ==> a in t && ids[a] == t[a].id
  }

  /** Part of a call: `done` are resolved in the table, `ids` are the table's, and each exporter in
      `done` was asked for once. */
  ghost predicate Progress(t0: Table, t: Table, seen: map<Addr, int>, ids: map<Addr, nat>, done: set<Addr>,
                           asked: seq<Seen>) {
    Resolved(t0, t, seen, done) && IdsAgree(ids, t) && AsksFor(asked, seen, done)
  }

  lemma NothingYet(t: Table, seen: map<Addr, int>)
    ensures Progress(t, t, seen, map[], {}, [])
  {
    assert Pairs(seen, {}) == {};
  }

  lemma ProgressStep(t0: Table, t: Table, newId: nat, seen: map<Addr, int>, ids: map<Addr, nat>, done: set<Addr>,
                     asked: seq<Seen>, a: Addr)
    requires Progress(t0, t, seen, ids, done, asked) && a in seen && a !in done
    ensures Progress(t0, Upsert(t, newId, a, seen[a]), seen, ids, done + {a}, asked + [Seen(a, seen[a])])
  {
    hide Resolved, AsksFor, IdsAgree, Upsert;
    ResolvedStep(t0, t, seen, done, a, newId);
    IdsStay(ids, t, newId, a, seen[a]);
    AsksForNext(asked, seen, done, a);
  }

  lemma IdFound(t0: Table, t: Table, seen: map<Addr, int>, ids: map<Addr, nat>, done: set<Addr>, asked: seq<Seen>,
                a: Addr, id: nat)
    requires Progress(t0, t, seen, ids, done, asked) && a in t && id == t[a].id
    ensures Progress(t0, t, seen, ids[a := id], done, asked)
  {
  }

  lemma IdsStay(ids: map<Addr, nat>, t: Table, newId: nat, a: Addr, at: int)
    requires IdsAgree(ids, t)
    ensures IdsAgree(ids, Upsert(t, newId, a, at))
    ensures var t' := Upsert(t, newId, a, at); IdsAgree(ids[a := t'[a].id], t')
  {
  }
}
