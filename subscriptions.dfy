/** The subscription registry: the session's `activeSubscriptions` Map from
    subscription id to the request that created it, filled from inbound
    frames and read by the command builder for its unsubscribe default. */
module Subscriptions {
  import opened Base
  import opened Json
  import opened OrderedMap

  /** The value stored per subscription id: `{requestId, timestamp}`. */
  datatype Subscription = Subscription(requestId: Json, timestamp: string)

  type Registry = seq<(Json, Subscription)>

  /** What every registry built by the session satisfies: it is a Map, so
      no id occurs twice, and only truthy ids are ever inserted. */
  predicate ValidRegistry(reg: Registry)
  {
    DistinctKeys(reg) && forall i :: 0 <= i < |reg| ==> Truthy(reg[i].0)
  }

  /** A parsed inbound frame confirms a subscription when it is an object
      whose `subscriptionId` and `requestId` are both truthy. */
  predicate IsConfirmation(frame: Json)
  {
    && Prop(frame, "subscriptionId").Some? && Truthy(Prop(frame, "subscriptionId").value)
    && Prop(frame, "requestId").Some? && Truthy(Prop(frame, "requestId").value)
  }

  /** The registry update `onmessage` makes for a frame that parsed: an
      upsert for a confirmation, nothing otherwise. */
  function Track(reg: Registry, frame: Json, time: string): (r: Registry)
    requires ValidRegistry(reg)
    ensures ValidRegistry(r)
    ensures !IsConfirmation(frame) ==> r == reg
    ensures IsConfirmation(frame) ==>
      var id := Prop(frame, "subscriptionId").value;
      && Lookup(r, id) == Some(Subscription(Prop(frame, "requestId").value, time))
      && Keys(r) == (if id in Keys(reg) then Keys(reg) else Keys(reg) + [id])
      && forall other :: other != id ==> Lookup(r, other) == Lookup(reg, other)
  {
    if IsConfirmation(frame) then
      var id := Prop(frame, "subscriptionId").value;
      var sub := Subscription(Prop(frame, "requestId").value, time);
      var r := Set(reg, id, sub);
      SetKeys(reg, id, sub);
      SetDistinct(reg, id, sub);
      forall other ensures Lookup(r, other) == if other == id then Some(sub) else Lookup(reg, other) {
        SetLookup(reg, id, sub, other);
      }
      assert forall i :: 0 <= i < |r| ==> Truthy(r[i].0) by {
        forall i | 0 <= i < |r| ensures Truthy(r[i].0) {
          assert Keys(r)[i] == r[i].0;
          if i < |reg| { assert Keys(reg)[i] == reg[i].0; }
        }
      }
      r
    else reg
  }

  /** The id `unsubscribeFromId` removes after a successful send. */
  function Remove(reg: Registry, id: Json): (r: Registry)
    requires ValidRegistry(reg)
    ensures ValidRegistry(r)
    ensures Lookup(r, id) == None
    ensures forall other :: other != id ==> Lookup(r, other) == Lookup(reg, other)
  {
    var r := Delete(reg, id);
    DeleteDistinct(reg, id);
    forall other ensures Lookup(r, other) == if other == id then None else Lookup(reg, other) {
      DeleteLookup(reg, id, other);
    }
    assert forall i :: 0 <= i < |r| ==> Truthy(r[i].0) by {
      forall i | 0 <= i < |r| ensures Truthy(r[i].0) {
        assert Keys(r)[i] == r[i].0;
        assert r[i].0 in Keys(r);
        assert r[i].0 in Keys(reg);
        var j :| 0 <= j < |reg| && Keys(reg)[j] == r[i].0;
        assert Keys(reg)[j] == reg[j].0;
      }
    }
    r
  }

  /** `getLatestSubscriptionId`: the most recently inserted id, or "1" when
      the registry is empty (or, which cannot happen for a valid registry,
      its last id is falsy). The result is always usable as an id. */
  function Latest(reg: Registry): (r: Json)
    ensures Truthy(r)
    ensures reg == [] ==> r == JStr("1")
    ensures ValidRegistry(reg) && reg != [] ==> r == reg[|reg| - 1].0
  {
    if reg == [] then JStr("1")
    else if Truthy(reg[|reg| - 1].0) then reg[|reg| - 1].0
    else JStr("1")
  }

  /** A confirmation for an id not yet registered makes that id the latest. */
  lemma TrackNewIsLatest(reg: Registry, frame: Json, time: string)
    requires ValidRegistry(reg) && IsConfirmation(frame)
    requires Prop(frame, "subscriptionId").value !in Keys(reg)
    ensures Latest(Track(reg, frame, time)) == Prop(frame, "subscriptionId").value
  {
    var id := Prop(frame, "subscriptionId").value;
    SetNewKeyIsLast(reg, id, Subscription(Prop(frame, "requestId").value, time));
  }

  /** Removing the latest id makes the one inserted before it the latest,
      and removing the only id leaves the "1" fallback. */
  lemma RemoveLatest(reg: Registry)
    requires ValidRegistry(reg) && reg != []
    ensures Latest(Remove(reg, reg[|reg| - 1].0)) ==
      if |reg| == 1 then JStr("1") else reg[|reg| - 2].0
  {
    DeleteLast(reg);
  }

  /** The smallest confirmation frame, `{"subscriptionId": id, "requestId": rid}`. */
  lemma ConfirmationFrame(id: Json, rid: Json)
    requires Truthy(id) && Truthy(rid)
    ensures var f := JObj([("subscriptionId", id), ("requestId", rid)]);
      && IsConfirmation(f)
      && Prop(f, "subscriptionId") == Some(id)
      && Prop(f, "requestId") == Some(rid)
  {
    var fields := [("subscriptionId", id), ("requestId", rid)];
    assert fields[1..] == [("requestId", rid)];
    assert |fields[0].0| != |"requestId"|;
    assert Lookup(fields[1..], "requestId") == Some(rid);
    assert Lookup(fields, "requestId") == Some(rid);
  }

  /** Subscriptions A then B: B is the latest; after removing B, A is; once
      the registry is cleared, the fallback "1" is. */
  lemma LatestScenario(a: Json, b: Json, ra: Json, rb: Json, t1: string, t2: string)
    requires Truthy(a) && Truthy(b) && Truthy(ra) && Truthy(rb) && a != b
    ensures var fa := JObj([("subscriptionId", a), ("requestId", ra)]);
            var fb := JObj([("subscriptionId", b), ("requestId", rb)]);
            var r1 := Track([], fa, t1);
            var r2 := Track(r1, fb, t2);
            && Latest(r2) == b
            && Latest(Remove(r2, b)) == a
            && Latest([]) == JStr("1")
  {
    var fa := JObj([("subscriptionId", a), ("requestId", ra)]);
    var fb := JObj([("subscriptionId", b), ("requestId", rb)]);
    ConfirmationFrame(a, ra);
    ConfirmationFrame(b, rb);
    var r1 := Track([], fa, t1);
    assert r1 == [(a, Subscription(ra, t1))];
    var r2 := Track(r1, fb, t2);
    assert Keys(r1) == [a];
    TrackNewIsLatest(r1, fb, t2);
    SetNewKeyIsLast(r1, b, Subscription(rb, t2));
    assert r2 == r1 + [(b, Subscription(rb, t2))];
    RemoveLatest(r2);
  }
}
