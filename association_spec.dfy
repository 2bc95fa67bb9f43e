/** The associations collection as a value: a map from the (server URL,
    handle) pair to its document, and what each operation does to it. */
module AssociationSpec {
  import opened Records

  type Associations = map<AssocKey, AssocDoc>

  /** Every document repeats its key in its own fields, and the stored
      association carries the handle it is filed under. */
  ghost predicate WellKeyed(m: Associations) {
    forall k :: k in m ==>
      m[k].serverUrl == k.serverUrl && m[k].handle == k.handle && m[k].association.handle == k.handle
  }

  /** Seconds left before `a` expires, never negative. This is the assumed
      meaning of python-openid's `Association.expiresIn`, which is not part
      of this model. */
  function ExpiresIn(a: Association, now: int): (r: nat)
    ensures r == 0 <==> a.issued + a.lifetime <= now
    ensures now + r >= a.issued + a.lifetime
    ensures a.issued + a.lifetime > now ==> now + r == a.issued + a.lifetime
  {
    if a.issued + a.lifetime - now > 0 then a.issued + a.lifetime - now else 0
  }

  /** The document `storeAssociation` writes at time `now`. */
  function NewDoc(serverUrl: string, a: Association, now: int): (d: AssocDoc)
    ensures d.serverUrl == serverUrl && d.handle == a.handle && d.association == a
    ensures now <= d.expires && a.issued + a.lifetime <= d.expires
    ensures d.expires == now || d.expires == a.issued + a.lifetime
  {
    AssocDoc(serverUrl, a.handle, a, now + ExpiresIn(a, now))
  }

  /** An unacknowledged insert: a document under a key that is already taken
      is dropped, so the first document stays. */
  function Insert(m: Associations, serverUrl: string, a: Association, now: int): (m': Associations)
    ensures m'.Keys == m.Keys + {AssocKey(serverUrl, a.handle)}
    ensures forall k :: k in m ==> m'[k] == m[k]
    ensures AssocKey(serverUrl, a.handle) !in m ==> m'[AssocKey(serverUrl, a.handle)].association == a
    ensures WellKeyed(m) ==> WellKeyed(m')
  {
    var k := AssocKey(serverUrl, a.handle);
    if k in m then m else m[k := NewDoc(serverUrl, a, now)]
  }

  /** `getAssociation(url, handle)` with a handle: the document's association, if any. */
  function Lookup(m: Associations, serverUrl: string, handle: string): (r: Option<Association>)
    ensures r.Some? <==> AssocKey(serverUrl, handle) in m
    ensures WellKeyed(m) && r.Some? ==> r.value.handle == handle
  {
    var k := AssocKey(serverUrl, handle);
    if k in m then Some(m[k].association) else None
  }

  /** Some document is filed for `serverUrl`. */
  ghost predicate HasServer(m: Associations, serverUrl: string) {
    exists k :: k in m && m[k].serverUrl == serverUrl
  }

  /** `a` is the association of a document for `serverUrl` whose `issued` is
      at least that of every document for `serverUrl`. Expiry plays no part. */
  ghost predicate IsLatest(m: Associations, serverUrl: string, a: Association) {
    exists k :: k in m && m[k].serverUrl == serverUrl && m[k].association == a &&
      forall k' :: k' in m && m[k'].serverUrl == serverUrl ==> m[k'].association.issued <= a.issued
  }

  /** Removing by key: the key is gone and every other document stays as it was. */
  function Remove(m: Associations, serverUrl: string, handle: string): (m': Associations)
    ensures m'.Keys == m.Keys - {AssocKey(serverUrl, handle)}
    ensures forall k :: k in m' ==> m'[k] == m[k]
    ensures WellKeyed(m) ==> WellKeyed(m')
  {
    m - {AssocKey(serverUrl, handle)}
  }

  /** The keys the source's sweep selects: `expires` greater than `now`. */
  function UnexpiredKeys(m: Associations, now: int): (ks: set<AssocKey>)
    ensures ks <= m.Keys
    ensures forall k :: k in m ==> (k in ks <==> m[k].expires > now)
  {
    set k | k in m && m[k].expires > now
  }

  /** The sweep as the source writes it: it deletes the UNEXPIRED documents. */
  function SweepUnexpired(m: Associations, now: int): (m': Associations)
    ensures forall k :: k in m' <==> k in m && m[k].expires <= now
    ensures forall k :: k in m' ==> m'[k] == m[k]
    ensures WellKeyed(m) ==> WellKeyed(m')
  {
    m - UnexpiredKeys(m, now)
  }

  /** The keys a time-to-live sweep is meant to select: `expires` earlier than `now`. */
  function ExpiredKeys(m: Associations, now: int): (ks: set<AssocKey>)
    ensures ks <= m.Keys
    ensures forall k :: k in m ==> (k in ks <==> m[k].expires < now)
  {
    set k | k in m && m[k].expires < now
  }

  /** The corrected sweep: it deletes the documents whose expiry has passed. */
  function SweepExpired(m: Associations, now: int): (m': Associations)
    ensures forall k :: k in m' <==> k in m && now <= m[k].expires
    ensures forall k :: k in m' ==> m'[k] == m[k]
    ensures WellKeyed(m) ==> WellKeyed(m')
  {
    m - ExpiredKeys(m, now)
  }

  // ----- store and lookup -----

  /** Lookup after store: the association filed under its handle has that
      handle, and it is the stored one unless the key was already taken. */
  lemma LookupAfterStore(m: Associations, serverUrl: string, a: Association, now: int)
    requires WellKeyed(m)
    ensures Lookup(Insert(m, serverUrl, a, now), serverUrl, a.handle).Some?
    ensures Lookup(Insert(m, serverUrl, a, now), serverUrl, a.handle).value.handle == a.handle
    ensures AssocKey(serverUrl, a.handle) !in m ==> Lookup(Insert(m, serverUrl, a, now), serverUrl, a.handle) == Some(a)
    ensures AssocKey(serverUrl, a.handle) in m ==> Lookup(Insert(m, serverUrl, a, now), serverUrl, a.handle) == Lookup(m, serverUrl, a.handle)
  {
  }

  /** Storing again under a taken key changes nothing, whatever the second
      association holds and whenever it is stored: the first document wins. */
  lemma StoreAgainKeepsFirst(m: Associations, serverUrl: string, a: Association, b: Association, now1: int, now2: int)
    requires a.handle == b.handle
    ensures Insert(Insert(m, serverUrl, a, now1), serverUrl, b, now2) == Insert(m, serverUrl, a, now1)
  {
  }

  /** A store under one key leaves the lookup of every other key unchanged. */
  lemma StoreKeepsOthers(m: Associations, serverUrl: string, a: Association, now: int, url2: string, handle2: string)
    requires AssocKey(url2, handle2) != AssocKey(serverUrl, a.handle)
    ensures Lookup(Insert(m, serverUrl, a, now), url2, handle2) == Lookup(m, url2, handle2)
  {
  }

  // ----- latest-issued selection -----

  /** A non-empty set of documents has one whose `issued` is greatest. */
  lemma {:induction false} MaxIssuedExists(m: Associations, ks: set<AssocKey>)
    requires ks != {} && ks <= m.Keys
    ensures exists k :: k in ks && forall k' :: k' in ks ==> m[k'].association.issued <= m[k].association.issued
    decreases ks
  {
    var k0 :| k0 in ks;
    var rest := ks - {k0};
    if rest != {} {
      MaxIssuedExists(m, rest);
      var k1 :| k1 in rest && forall k' :: k' in rest ==> m[k'].association.issued <= m[k1].association.issued;
      if m[k1].association.issued < m[k0].association.issued {
        assert forall k' :: k' in ks ==> m[k'].association.issued <= m[k0].association.issued;
      } else {
        assert forall k' :: k' in ks ==> m[k'].association.issued <= m[k1].association.issued;
      }
    } else {
      assert ks == {k0};
    }
  }

  /** There is a latest association for a server exactly when a document is filed for it. */
  lemma LatestExistsIffHasServer(m: Associations, serverUrl: string)
    ensures HasServer(m, serverUrl) <==> exists a :: IsLatest(m, serverUrl, a)
  {
    if HasServer(m, serverUrl) {
      var ks := set k | k in m && m[k].serverUrl == serverUrl;
      var k0 :| k0 in m && m[k0].serverUrl == serverUrl;
      assert k0 in ks;
      MaxIssuedExists(m, ks);
      var k :| k in ks && forall k' :: k' in ks ==> m[k'].association.issued <= m[k].association.issued;
      assert IsLatest(m, serverUrl, m[k].association);
    }
  }

  /** Two latest associations of one server were issued at the same time. */
  lemma LatestIssuedIsDetermined(m: Associations, serverUrl: string, a: Association, b: Association)
    requires IsLatest(m, serverUrl, a) && IsLatest(m, serverUrl, b)
    ensures a.issued == b.issued
  {
  }

  /** A document issued strictly later than every other document of its
      server holds the one and only latest association. */
  lemma StrictlyLatestIsUnique(m: Associations, serverUrl: string, k: AssocKey)
    requires k in m && m[k].serverUrl == serverUrl
    requires forall k' :: k' in m && m[k'].serverUrl == serverUrl && k' != k ==>
      m[k'].association.issued < m[k].association.issued
    ensures forall b :: IsLatest(m, serverUrl, b) <==> b == m[k].association
  {
  }

  /** Storing an association issued later than every association of its
      server makes it the one and only latest, whatever its lifetime. */
  lemma StoreNewerBecomesLatest(m: Associations, serverUrl: string, a: Association, now: int)
    requires AssocKey(serverUrl, a.handle) !in m
    requires forall k :: k in m && m[k].serverUrl == serverUrl ==> m[k].association.issued < a.issued
    ensures IsLatest(Insert(m, serverUrl, a, now), serverUrl, a)
    ensures forall b :: IsLatest(Insert(m, serverUrl, a, now), serverUrl, b) ==> b == a
  {
  }

  /** Removing an association other than the latest one keeps the latest one. */
  lemma RemoveOtherKeepsLatest(m: Associations, serverUrl: string, a: Association, handle: string)
    requires WellKeyed(m)
    requires IsLatest(m, serverUrl, a)
    requires handle != a.handle
    ensures IsLatest(Remove(m, serverUrl, handle), serverUrl, a)
  {
  }

  // ----- removal -----

  /** A removal deletes at most once: afterwards the key is absent, so a
      second removal finds nothing and changes nothing. */
  lemma RemoveOnce(m: Associations, serverUrl: string, handle: string)
    ensures AssocKey(serverUrl, handle) !in Remove(m, serverUrl, handle)
    ensures Lookup(Remove(m, serverUrl, handle), serverUrl, handle) == None
    ensures Remove(Remove(m, serverUrl, handle), serverUrl, handle) == Remove(m, serverUrl, handle)
  {
  }

  /** Removing one association leaves every other one retrievable by its handle. */
  lemma RemoveKeepsOthers(m: Associations, serverUrl: string, handle: string, url2: string, handle2: string)
    requires AssocKey(url2, handle2) != AssocKey(serverUrl, handle)
    ensures Lookup(Remove(m, serverUrl, handle), url2, handle2) == Lookup(m, url2, handle2)
  {
  }

  // ----- sweeps -----

  /** Deleting a set of keys removes exactly that many documents. */
  lemma RemovedCount(m: Associations, ks: set<AssocKey>)
    requires ks <= m.Keys
    ensures |m - ks| == |m| - |ks|
  {
  }

  /** The source's sweep, applied to an association stored before `now`
      that is still live at `now`, deletes it. */
  lemma SweepUnexpiredDeletesLive(m: Associations, serverUrl: string, a: Association, stored: int, now: int)
    requires AssocKey(serverUrl, a.handle) !in m
    requires stored <= now < a.issued + a.lifetime
    ensures Lookup(SweepUnexpired(Insert(m, serverUrl, a, stored), now), serverUrl, a.handle) == None
  {
  }

  /** The source's sweep keeps an association that had already expired when
      it was stored, so a later lookup still returns it. */
  lemma SweepUnexpiredKeepsExpired(m: Associations, serverUrl: string, a: Association, stored: int, now: int)
    requires AssocKey(serverUrl, a.handle) !in m
    requires a.issued + a.lifetime <= stored < now
    ensures Lookup(SweepUnexpired(Insert(m, serverUrl, a, stored), now), serverUrl, a.handle) == Some(a)
  {
  }

  /** The corrected sweep keeps an association that is still live at `now`. */
  lemma SweepExpiredKeepsLive(m: Associations, serverUrl: string, a: Association, stored: int, now: int)
    requires AssocKey(serverUrl, a.handle) !in m
    requires stored <= now < a.issued + a.lifetime
    ensures Lookup(SweepExpired(Insert(m, serverUrl, a, stored), now), serverUrl, a.handle) == Some(a)
  {
  }

  /** The corrected sweep deletes an association whose lifetime ended before
      the sweep, whether it was live or already expired when stored. */
  lemma SweepExpiredDeletesExpired(m: Associations, serverUrl: string, a: Association, stored: int, now: int)
    requires AssocKey(serverUrl, a.handle) !in m
    requires stored < now && a.issued + a.lifetime < now
    ensures Lookup(SweepExpired(Insert(m, serverUrl, a, stored), now), serverUrl, a.handle) == None
  {
  }
}
