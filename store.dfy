/** The store itself: one object holding the two collections, with the
    operations that python-openid calls on it. The clock and the skew
    tolerance are passed in on each call. */
module OpenIdMongoDb {
  import opened Records
  import opened Urls
  import opened AssociationSpec
  import opened NonceSpec

  /** The position `getAssociation` returns after sorting `found` by `issued`
      (a stable ascending sort) and taking the last element: the last
      position holding the greatest `issued`. */
  method LatestIssued(found: seq<Association>) returns (i: nat)
    requires found != []
    ensures i < |found|
    ensures forall j :: 0 <= j < |found| ==> found[j].issued <= found[i].issued
    ensures forall j :: i < j < |found| ==> found[j].issued < found[i].issued
  {
    i := 0;
    for j := 1 to |found|
      invariant i < j
      invariant forall k :: 0 <= k < j ==> found[k].issued <= found[i].issued
      invariant forall k :: i < k < j ==> found[k].issued < found[i].issued
    {
      if found[j].issued >= found[i].issued {
        i := j;
      }
    }
  }

  /** `a` is the association of some document for `serverUrl`. */
  ghost predicate FiledFor(m: Associations, serverUrl: string, a: Association) {
    exists k :: k in m && m[k].serverUrl == serverUrl && m[k].association == a
  }

  class MongoDBStore {
    var associations: Associations
    var nonces: set<Nonce>

    ghost predicate Valid()
      reads this
    {
      WellKeyed(associations)
    }

    /** A store over empty collections. */
    constructor ()
      ensures Valid()
      ensures associations == map[] && nonces == {}
    {
      associations := map[];
      nonces := {};
    }

    method StoreAssociation(serverUrl: string, association: Association, now: int) returns (r: Result<()>)
      requires Valid()
      modifies this
      ensures Valid()
      ensures !HasSchemeSeparator(serverUrl) ==>
        r == Err(BadServerUrl(serverUrl)) && associations == old(associations)
      ensures HasSchemeSeparator(serverUrl) ==>
        r == Ok(()) && associations == Insert(old(associations), serverUrl, association, now)
      ensures nonces == old(nonces)
    {
      if Find(serverUrl, SCHEME_SEPARATOR) == -1 {
        return Err(BadServerUrl(serverUrl));
      }
      var k := AssocKey(serverUrl, association.handle);
      if k !in associations {
        associations := associations[k := NewDoc(serverUrl, association, now)];
      }
      r := Ok(());
    }

    /** `getAssociation(serverUrl, handle)`; `None` for the handle asks for the
        latest-issued association of the server. */
    method GetAssociation(serverUrl: string, handle: Option<string>) returns (r: Result<Option<Association>>)
      requires Valid()
      ensures !HasSchemeSeparator(serverUrl) ==> r == Err(BadServerUrl(serverUrl))
      ensures HasSchemeSeparator(serverUrl) && handle.Some? ==>
        r == Ok(Lookup(associations, serverUrl, handle.value))
      ensures HasSchemeSeparator(serverUrl) && handle.None? ==>
        r.Ok? && (r.value.None? <==> !HasServer(associations, serverUrl))
      ensures HasSchemeSeparator(serverUrl) && handle.None? && r.Ok? && r.value.Some? ==>
        IsLatest(associations, serverUrl, r.value.value)
    {
      if Find(serverUrl, SCHEME_SEPARATOR) == -1 {
        return Err(BadServerUrl(serverUrl));
      }
      if handle.Some? {
        var k := AssocKey(serverUrl, handle.value);
        if k in associations {
          return Ok(Some(associations[k].association));
        }
        return Ok(None);
      }
      // the query on server_url, read in the cursor's (unspecified) order
      var found: seq<Association> := [];
      var rest := associations.Keys;
      while rest != {}
        invariant rest <= associations.Keys
        invariant forall a :: a in found ==> FiledFor(associations, serverUrl, a)
        invariant forall k :: k in associations && k !in rest && associations[k].serverUrl == serverUrl ==>
          associations[k].association in found
        decreases rest
      {
        var k :| k in rest;
        rest := rest - {k};
        if associations[k].serverUrl == serverUrl {
          found := found + [associations[k].association];
        }
      }
      assert forall k :: k in associations && associations[k].serverUrl == serverUrl ==>
        associations[k].association in found;
      if |found| == 0 {
        return Ok(None);
      }
      var i := LatestIssued(found);
      assert FiledFor(associations, serverUrl, found[i]);
      ghost var k :| k in associations && associations[k].serverUrl == serverUrl && associations[k].association == found[i];
      forall k' | k' in associations && associations[k'].serverUrl == serverUrl
        ensures associations[k'].association.issued <= found[i].issued
      {
        var j :| 0 <= j < |found| && found[j] == associations[k'].association;
      }
      r := Ok(Some(found[i]));
    }

    method RemoveAssociation(serverUrl: string, handle: string) returns (r: Result<bool>)
      requires Valid()
      modifies this
      ensures Valid()
      ensures !HasSchemeSeparator(serverUrl) ==>
        r == Err(BadServerUrl(serverUrl)) && associations == old(associations)
      ensures HasSchemeSeparator(serverUrl) ==>
        r == Ok(AssocKey(serverUrl, handle) in old(associations)) &&
        associations == Remove(old(associations), serverUrl, handle)
      ensures nonces == old(nonces)
    {
      if Find(serverUrl, SCHEME_SEPARATOR) == -1 {
        return Err(BadServerUrl(serverUrl));
      }
      var k := AssocKey(serverUrl, handle);
      r := Ok(k in associations);
      associations := associations - {k};
    }

    /** The sweep as written: it deletes the documents whose `expires` is
        greater than `now` and reports how many it deleted. */
    method CleanupAssociations(now: int) returns (n: nat)
      requires Valid()
      modifies this
      ensures Valid()
      ensures n == |UnexpiredKeys(old(associations), now)|
      ensures associations == SweepUnexpired(old(associations), now)
      ensures n == |old(associations)| - |associations|
      ensures nonces == old(nonces)
    {
      var doomed := set k | k in associations && associations[k].expires > now;
      RemovedCount(associations, doomed);
      n := |doomed|;
      associations := associations - doomed;
    }

    /** The corrected sweep: it deletes the documents whose `expires` is
        earlier than `now` and reports how many it deleted. */
    method CleanupExpiredAssociations(now: int) returns (n: nat)
      requires Valid()
      modifies this
      ensures Valid()
      ensures n == |ExpiredKeys(old(associations), now)|
      ensures associations == SweepExpired(old(associations), now)
      ensures n == |old(associations)| - |associations|
      ensures nonces == old(nonces)
    {
      var doomed := set k | k in associations && associations[k].expires < now;
      RemovedCount(associations, doomed);
      n := |doomed|;
      associations := associations - doomed;
    }

    /** `useNonce`: no URL check; the unique-key insert's duplicate error
        becomes `false`. */
    method UseNonce(serverUrl: string, timestamp: int, salt: string, now: int, skew: int) returns (ok: bool)
      requires Valid()
      modifies this
      ensures Valid()
      ensures (ok, nonces) == Claim(old(nonces), Nonce(serverUrl, timestamp, salt), now, skew)
      ensures associations == old(associations)
    {
      if Abs(timestamp - now) > skew {
        return false;
      }
      var n := Nonce(serverUrl, timestamp, salt);
      if n in nonces {
        return false;
      }
      nonces := nonces + {n};
      ok := true;
    }

    /** `cleanupNonces`: deletes every nonce outside [now - skew, now + skew]
        and reports how many it deleted. */
    method CleanupNonces(now: int, skew: int) returns (n: nat)
      requires Valid()
      modifies this
      ensures Valid()
      ensures n == |StaleNonces(old(nonces), now, skew)|
      ensures nonces == Sweep(old(nonces), now, skew)
      ensures n == |old(nonces)| - |nonces|
      ensures associations == old(associations)
    {
      var stale := set x | x in nonces && (x.timestamp > now + skew || x.timestamp < now - skew);
      assert stale == StaleNonces(nonces, now, skew);
      SweepCount(nonces, now, skew);
      n := |stale|;
      nonces := nonces - stale;
    }
  }
}
