/** The replay barrier of the template store's watcher. */
module Replay {

  /** One record delivered by the consumer. */
  datatype Delivery = Delivery(part: nat, off: nat)

  /** The first `n` deliveries have reached the end offset of every partition that had records. */
  ghost predicate CaughtUp(ends: map<nat, nat>, ds: seq<Delivery>, n: nat)
    requires n <= |ds|
  {
    forall p :: p in ends && ends[p] > 0 ==> Reached(ends[p], p, ds, n)
  }

  ghost predicate Reached(end: nat, p: nat, ds: seq<Delivery>, n: nat)
    requires n <= |ds|
  {
    exists i :: 0 <= i < n && ds[i].part == p && ds[i].off + 1 >= end
  }

  lemma ReachedNext(end: nat, p: nat, ds: seq<Delivery>, n: nat)
    requires n < |ds|
    ensures Reached(end, p, ds, n + 1) <==> Reached(end, p, ds, n) || (ds[n].part == p && ds[n].off + 1 >= end)
  {
    if Reached(end, p, ds, n) {
      var i :| 0 <= i < n && ds[i].part == p && ds[i].off + 1 >= end;
    }
  }

  /** The watch loop over everything delivered. `synced` lists, per call of the callback, how many
      records had been applied by then. */
  method Watch(ends: map<nat, nat>, ds: seq<Delivery>) returns (synced: seq<nat>)
    ensures |synced| <= 1
    ensures synced == [] <==> !CaughtUp(ends, ds, |ds|)
    ensures |synced| == 1 ==> synced[0] <= |ds| && CaughtUp(ends, ds, synced[0])
    ensures |synced| == 1 && synced[0] > 0 ==> !CaughtUp(ends, ds, synced[0] - 1)
  {
    var remaining := map p | p in ends && ends[p] > 0 :: ends[p];
    synced := [];
    if remaining == map[] {
      assert forall p :: p in ends && ends[p] > 0 ==> p in remaining;
      synced := synced + [0];
    }
    assert forall p :: p in ends ==> !Reached(ends[p], p, ds, 0);
    hide Reached;
    for n := 0 to |ds|
      invariant forall p :: p in remaining ==> p in ends && ends[p] > 0 && remaining[p] == ends[p]
      invariant forall p :: p in remaining ==> !Reached(ends[p], p, ds, n)
      invariant forall p :: p in ends && ends[p] > 0 && p !in remaining ==> Reached(ends[p], p, ds, n)
      invariant |synced| <= 1 && (synced == [] <==> remaining != map[])
      invariant |synced| == 1 ==> synced[0] <= n && CaughtUp(ends, ds, synced[0])
      invariant |synced| == 1 && synced[0] > 0 ==> !CaughtUp(ends, ds, synced[0] - 1)
    {
      var r := ds[n];
      forall p | p in ends
        ensures Reached(ends[p], p, ds, n + 1) <==> Reached(ends[p], p, ds, n) || (r.part == p && r.off + 1 >= ends[p])
      {
        ReachedNext(ends[p], p, ds, n);
      }
      if r.part in remaining && r.off + 1 >= remaining[r.part] {
        assert !CaughtUp(ends, ds, n);
        remaining := remaining - {r.part};
        if remaining == map[] {
          synced := synced + [n + 1];
        }
      }
      assert forall p :: p in ends && ends[p] > 0 && p !in remaining ==> Reached(ends[p], p, ds, n + 1);
      assert remaining == map[] ==> CaughtUp(ends, ds, n + 1);
    }
    if synced == [] {
      var p :| p in remaining;
      assert !Reached(ends[p], p, ds, |ds|);
    } else {
      assert CaughtUp(ends, ds, |ds|);
    }
  }

  /** Each partition is delivered from the start, in order, skipping only offsets that hold no
      record any more. */
  ghost predicate InOrder(live: set<Delivery>, ds: seq<Delivery>) {
    forall i, x :: 0 <= i < |ds| && x in live && x.part == ds[i].part && x.off < ds[i].off ==>
      exists j :: 0 <= j < i && ds[j] == x
  }

  /** When the barrier opens, every live record below every end offset has been applied. */
  lemma BarrierIsComplete(ends: map<nat, nat>, live: set<Delivery>, ds: seq<Delivery>, n: nat, x: Delivery)
    requires n <= |ds| && CaughtUp(ends, ds, n) && InOrder(live, ds)
    requires x in live && x.part in ends && x.off < ends[x.part]
    ensures x in ds[..n]
  {
    assert Reached(ends[x.part], x.part, ds, n);
    var i :| 0 <= i < n && ds[i].part == x.part && ds[i].off + 1 >= ends[x.part];
    if x.off < ds[i].off {
      var j :| 0 <= j < i && ds[j] == x;
      assert ds[..n][j] == x;
    } else {
      assert ds[..n][i] == x;
    }
  }
}
