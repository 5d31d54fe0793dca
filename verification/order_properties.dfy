/**
  Properties that relate several handler calls: what a later lookup sees
  after a create, a delete or an update; which handlers keep every stored
  order in the schema's shape and every id distinct; and how the size of the
  collection follows the replies of a whole run of requests.
 */
module OrderProperties {
  import opened Json
  import opened OrderSchema
  import opened Orders

  /** Every stored order has the schema's shape. */
  predicate AllValid(s: seq<Order>)
  {
    forall j :: 0 <= j < |s| ==> ValidOrder(Obj(s[j]))
  }

  /** No two stored orders carry the same `"id"` value. */
  predicate DistinctIds(s: seq<Order>)
  {
    forall i, j :: 0 <= i < j < |s| && IdKey in s[i] && IdKey in s[j] ==> s[i][IdKey] != s[j][IdKey]
  }

  // ---------------------------------------------------------------------------
  // Create, then look up
  // ---------------------------------------------------------------------------

  /** A created order is found under the generated id, provided the payload
      has no `"id"` of its own and no stored order already has that id. */
  lemma CreateThenGet(s: seq<Order>, data: Value, newId: string)
    requires ValidOrder(data)
    requires IdKey !in data.fields
    requires Absent(s, newId)
    ensures Create(s, data, newId).reply == Created(newId)
    ensures Get(Create(s, data, newId).orders, newId).reply == Found(WithId(newId, data.fields))
  {
  }

  /** A payload `"id"` overrides the generated one: the reply still names the
      generated id, yet a lookup under it finds nothing, while a lookup under
      the payload's id finds the new order. */
  lemma CreateWithPayloadId(s: seq<Order>, data: Value, newId: string, own: string)
    requires ValidOrder(data)
    requires IdKey in data.fields && data.fields[IdKey] == Str(own)
    requires own != newId
    requires Absent(s, newId) && Absent(s, own)
    ensures Create(s, data, newId).reply == Created(newId)
    ensures Get(Create(s, data, newId).orders, newId).reply == NotFound
    ensures Get(Create(s, data, newId).orders, own).reply == Found(data.fields)
  {
  }

  // ---------------------------------------------------------------------------
  // Delete, then look up
  // ---------------------------------------------------------------------------

  /** With at most one order per id, a deleted id is no longer found. */
  lemma DeleteThenGet(s: seq<Order>, id: string)
    requires DistinctIds(s)
    ensures Get(Delete(s, id).orders, id).reply == NotFound
  {
  }

  /** With two orders sharing an id, a delete removes only the first, and a
      lookup afterwards finds the second. */
  lemma DeleteThenGetDuplicate(s: seq<Order>, id: string, i: int, j: int)
    requires IsFirstMatch(s, id, i)
    requires i < j < |s| && HasId(s[j], id)
    ensures Get(Delete(s, id).orders, id).reply.Found?
  {
    var s' := Delete(s, id).orders;
    assert s'[j - 1] == s[j];
    assert !Absent(s', id);
  }

  /** After deleting the first match at `i`, a lookup under the same id
      answers "not found" exactly when no later order shares that id. */
  lemma DeleteThenGetExact(s: seq<Order>, id: string, i: int)
    requires IsFirstMatch(s, id, i)
    ensures Get(Delete(s, id).orders, id).reply == NotFound
        <==> (forall j :: i < j < |s| ==> !HasId(s[j], id))
  {
    var s' := Delete(s, id).orders;
    if exists j :: i < j < |s| && HasId(s[j], id) {
      var j :| i < j < |s| && HasId(s[j], id);
      assert s'[j - 1] == s[j];
    } else {
      forall j | 0 <= j < |s'|
        ensures !HasId(s'[j], id)
      {
        if j >= i {
          assert s'[j] == s[j + 1];
        }
      }
    }
  }

  // ---------------------------------------------------------------------------
  // Full replacement against shallow merge
  // ---------------------------------------------------------------------------

  /** On an old field the payload does not mention, a replacement drops it
      while a merge keeps its value. */
  lemma ReplaceDropsPatchKeeps(s: seq<Order>, id: string, i: int, data: Value, key: string)
    requires ValidOrder(data)
    requires IsFirstMatch(s, id, i)
    requires key in s[i] && key !in data.fields && key != IdKey
    ensures key !in Replace(s, id, data).orders[i]
    ensures key in Patch(s, id, data).orders[i]
    ensures Patch(s, id, data).orders[i][key] == s[i][key]
  {
  }

  // ---------------------------------------------------------------------------
  // Shape of the stored orders
  // ---------------------------------------------------------------------------

  /** Adding an id to a valid payload keeps it valid. */
  lemma WithIdValid(id: string, fields: Fields)
    requires ValidOrder(Obj(fields))
    ensures ValidOrder(Obj(WithId(id, fields)))
  {
  }

  /** Every handler except the merge keeps all stored orders in shape. */
  lemma HandleKeepsValid(s: seq<Order>, req: Request)
    requires AllValid(s)
    requires !req.PatchOrder?
    ensures AllValid(Handle(s, req).orders)
  {
  }

  /** A merge is never validated: setting `user_id` to a number through it
      always leaves a stored order outside the schema. */
  lemma PatchBreaksValid(s: seq<Order>, id: string, i: int)
    requires IsFirstMatch(s, id, i)
    ensures !ValidOrder(Obj(Patch(s, id, Obj(map[UserId := Num(1.0)])).orders[i]))
    ensures !AllValid(Patch(s, id, Obj(map[UserId := Num(1.0)])).orders)
  {
  }

  /** A run of requests without merges keeps all stored orders in shape. */
  lemma {:induction false} RunKeepsValid(s: seq<Order>, reqs: seq<Request>)
    requires AllValid(s)
    requires forall k :: 0 <= k < |reqs| ==> !reqs[k].PatchOrder?
    ensures AllValid(Run(s, reqs).orders)
    decreases |reqs|
  {
    if |reqs| > 0 {
      HandleKeepsValid(s, reqs[0]);
      RunKeepsValid(Handle(s, reqs[0]).orders, reqs[1..]);
    }
  }

  // ---------------------------------------------------------------------------
  // Distinct ids
  // ---------------------------------------------------------------------------

  /** Distinct ids survive a create whose generated id is new and whose
      payload has no `"id"`. */
  lemma CreateKeepsDistinct(s: seq<Order>, data: Value, newId: string)
    requires DistinctIds(s)
    requires data.Obj? ==> IdKey !in data.fields
    requires Absent(s, newId)
    ensures DistinctIds(Create(s, data, newId).orders)
  {
  }

  /** Distinct ids survive every delete. */
  lemma DeleteKeepsDistinct(s: seq<Order>, id: string)
    requires DistinctIds(s)
    ensures DistinctIds(Delete(s, id).orders)
  {
  }

  /** A replacement whose payload has no `"id"` keeps the matched id, so
      distinct ids stay distinct. */
  lemma ReplaceKeepsDistinct(s: seq<Order>, id: string, data: Value)
    requires DistinctIds(s)
    requires data.Obj? ==> IdKey !in data.fields
    ensures DistinctIds(Replace(s, id, data).orders)
  {
  }

  /** A merge may rewrite `"id"`: copying one order's id onto another makes
      two orders share it. */
  lemma PatchDuplicatesId(s: seq<Order>, a: string, b: string)
    requires |s| >= 2 && HasId(s[0], a) && HasId(s[1], b) && a != b
    ensures Patch(s, b, Obj(map[IdKey := Str(a)])).reply == PartiallyUpdated
    ensures !DistinctIds(Patch(s, b, Obj(map[IdKey := Str(a)])).orders)
  {
  }

  // ---------------------------------------------------------------------------
  // Size of the collection over a run
  // ---------------------------------------------------------------------------

  /** Running `a` and then `b` is running `a + b`: each request sees the
      collection the previous one left, and the replies come in request order. */
  lemma {:induction false} RunConcat(s: seq<Order>, a: seq<Request>, b: seq<Request>)
    ensures Run(s, a + b).orders == Run(Run(s, a).orders, b).orders
    ensures Run(s, a + b).replies == Run(s, a).replies + Run(Run(s, a).orders, b).replies
    decreases |a|
  {
    if |a| > 0 {
      assert (a + b)[0] == a[0];
      assert (a + b)[1..] == a[1..] + b;
      RunConcat(Handle(s, a[0]).orders, a[1..], b);
    } else {
      assert a + b == b;
    }
  }

  /** After any run, the collection has grown by the number of successful
      creates and shrunk by the number of successful deletes. */
  lemma {:induction false} RunSize(s: seq<Order>, reqs: seq<Request>)
    ensures |Run(s, reqs).orders| + Deletions(Run(s, reqs).replies)
         == |s| + Creations(Run(s, reqs).replies)
    decreases |reqs|
  {
    if |reqs| > 0 {
      var step := Handle(s, reqs[0]);
      var t := Run(s, reqs);
      RunSize(step.orders, reqs[1..]);
      assert t.replies[1..] == Run(step.orders, reqs[1..]).replies;
    }
  }

  /** From the empty start-up collection, N successful creates and M
      successful deletes leave exactly N - M orders. */
  lemma RunFromInitial(reqs: seq<Request>)
    ensures |Run(Initial, reqs).orders| == Creations(Run(Initial, reqs).replies) - Deletions(Run(Initial, reqs).replies)
  {
    RunSize(Initial, reqs);
  }
}
