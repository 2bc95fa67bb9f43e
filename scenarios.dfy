/** The store's own test scenarios, replayed against the operations'
    contracts: what a caller can conclude from the specifications alone. */
module Scenarios {
  import opened Records
  import opened Urls
  import opened AssociationSpec
  import opened NonceSpec
  import opened OpenIdMongoDb

  /** The server URL of the tests passes the check. */
  lemma ServerUrlIsWellFormed()
    ensures HasSchemeSeparator("http://www.myopenid.com/openid")
  {
    var url := "http://www.myopenid.com/openid";
    assert url[4] == ':' && url[5] == '/' && url[6] == '/';
    assert url[4..7] == SCHEME_SEPARATOR;
    assert OccursAt(url, SCHEME_SEPARATOR, 4);
  }

  function Assoc(handle: string, issued: int, lifetime: int): Association {
    Association(handle, "secret-" + handle, issued, lifetime, "HMAC-SHA1")
  }

  /** A test URL without "://" fails the check: its only ':' is followed by 'w'. */
  lemma BadServerUrlIsRejected()
    ensures !HasSchemeSeparator("http:www.openid.com/")
  {
    var url := "http:www.openid.com/";
    assert forall i :: 0 <= i < |url| && i != 4 ==> url[i] != ':';
    assert url[5] != '/';
    forall i | 0 <= i ensures !OccursAt(url, SCHEME_SEPARATOR, i) {
      if i + 3 <= |url| {
        assert url[i..i + 3][0] == url[i] && url[i..i + 3][1] == url[i + 1];
      }
    }
  }

  /** Three associations for one server, issued at now, now+1 and now+2, the
      last one short-lived, stored in that order into an empty store. */
  method StoreRotation(serverUrl: string, now: int) returns (store: MongoDBStore)
    requires HasSchemeSeparator(serverUrl)
    ensures fresh(store) && store.Valid()
    ensures store.associations == map[
      AssocKey(serverUrl, "a") := NewDoc(serverUrl, Assoc("a", now, 600), now),
      AssocKey(serverUrl, "b") := NewDoc(serverUrl, Assoc("b", now + 1, 600), now),
      AssocKey(serverUrl, "c") := NewDoc(serverUrl, Assoc("c", now + 2, 100), now)]
  {
    store := new MongoDBStore();
    var _ := store.StoreAssociation(serverUrl, Assoc("a", now, 600), now);
    var _ := store.StoreAssociation(serverUrl, Assoc("b", now + 1, 600), now);
    var _ := store.StoreAssociation(serverUrl, Assoc("c", now + 2, 100), now);
  }

  /** With three associations stored, the latest-issued one is served even
      though it expires first; each one is still served by its own handle;
      removing an older one reports a deletion and keeps the latest served. */
  method LatestIssuedScenario(serverUrl: string, now: int)
    returns (latest: Result<Option<Association>>, byHandle: Result<Option<Association>>,
             removedB: Result<bool>, afterB: Result<Option<Association>>)
    requires HasSchemeSeparator(serverUrl)
    ensures latest == Ok(Some(Assoc("c", now + 2, 100)))
    ensures byHandle == Ok(Some(Assoc("a", now, 600)))
    ensures removedB == Ok(true)
    ensures afterB == Ok(Some(Assoc("c", now + 2, 100)))
  {
    var store := StoreRotation(serverUrl, now);
    StrictlyLatestIsUnique(store.associations, serverUrl, AssocKey(serverUrl, "c"));
    latest := store.GetAssociation(serverUrl, None);
    byHandle := store.GetAssociation(serverUrl, Some("a"));
    removedB := store.RemoveAssociation(serverUrl, "b");
    StrictlyLatestIsUnique(store.associations, serverUrl, AssocKey(serverUrl, "c"));
    afterB := store.GetAssociation(serverUrl, None);
  }

  /** Removing the two newer associations leaves the oldest one served; a
      second removal of a removed one reports nothing deleted. */
  method RemoveLatestScenario(serverUrl: string, now: int)
    returns (removedBAgain: Result<bool>, latest: Result<Option<Association>>)
    requires HasSchemeSeparator(serverUrl)
    ensures removedBAgain == Ok(false)
    ensures latest == Ok(Some(Assoc("a", now, 600)))
  {
    var store := StoreRotation(serverUrl, now);
    var _ := store.RemoveAssociation(serverUrl, "b");
    var _ := store.RemoveAssociation(serverUrl, "c");
    removedBAgain := store.RemoveAssociation(serverUrl, "b");
    StrictlyLatestIsUnique(store.associations, serverUrl, AssocKey(serverUrl, "a"));
    latest := store.GetAssociation(serverUrl, None);
  }

  /** Storing, looking up and removing under a URL without "://" is refused
      and leaves the store as it was. */
  method BadServerUrlScenario(serverUrl: string, now: int)
    returns (stored: Result<()>, found: Result<Option<Association>>, removed: Result<bool>, latest: Result<Option<Association>>)
    requires HasSchemeSeparator(serverUrl)
    ensures stored == Err(BadServerUrl("http:www.openid.com/"))
    ensures found == Err(BadServerUrl("http:www.openid.com/"))
    ensures removed == Err(BadServerUrl("http:www.openid.com/"))
    ensures latest == Ok(Some(Assoc("c", now + 2, 100)))
  {
    var store := StoreRotation(serverUrl, now);
    BadServerUrlIsRejected();
    stored := store.StoreAssociation("http:www.openid.com/", Assoc("d", now + 3, 600), now);
    found := store.GetAssociation("http:www.openid.com/", None);
    removed := store.RemoveAssociation("http:www.openid.com/", "c");
    StrictlyLatestIsUnique(store.associations, serverUrl, AssocKey(serverUrl, "c"));
    latest := store.GetAssociation(serverUrl, None);
  }

  /** Two live and two expired associations stored at `now`: a live and an
      expired one under `serverUrl + "1"`, an expired one under
      `serverUrl + "2"` and a live one under `serverUrl + "3"`. */
  method StoreExpiryMix(serverUrl: string, now: int) returns (store: MongoDBStore)
    requires HasSchemeSeparator(serverUrl)
    ensures fresh(store) && store.Valid()
    ensures store.associations == map[
      AssocKey(serverUrl + "1", "v1") := NewDoc(serverUrl + "1", Assoc("v1", now - 3600, 7200), now),
      AssocKey(serverUrl + "1", "e1") := NewDoc(serverUrl + "1", Assoc("e1", now - 7200, 3600), now),
      AssocKey(serverUrl + "2", "e2") := NewDoc(serverUrl + "2", Assoc("e2", now - 7200, 3600), now),
      AssocKey(serverUrl + "3", "v2") := NewDoc(serverUrl + "3", Assoc("v2", now - 5, 600), now)]
  {
    SeparatorSurvivesSuffix(serverUrl, "1");
    SeparatorSurvivesSuffix(serverUrl, "2");
    SeparatorSurvivesSuffix(serverUrl, "3");
    store := new MongoDBStore();
    var _ := store.StoreAssociation(serverUrl + "1", Assoc("v1", now - 3600, 7200), now);
    var _ := store.StoreAssociation(serverUrl + "1", Assoc("e1", now - 7200, 3600), now);
    var _ := store.StoreAssociation(serverUrl + "2", Assoc("e2", now - 7200, 3600), now);
    var _ := store.StoreAssociation(serverUrl + "3", Assoc("v2", now - 5, 600), now);
  }

  /** Swept one second after storing, the sweep as written reports two
      deletions, as the test expects, and the live association is gone. */
  method SweepAsWrittenScenario(serverUrl: string, now: int)
    returns (cleaned: nat, live: Result<Option<Association>>, expired: Result<Option<Association>>)
    requires HasSchemeSeparator(serverUrl)
    ensures cleaned == 2
    ensures live == Ok(None)
    ensures expired == Ok(Some(Assoc("e1", now - 7200, 3600)))
  {
    var store := StoreExpiryMix(serverUrl, now);
    SeparatorSurvivesSuffix(serverUrl, "1");
    assert UnexpiredKeys(store.associations, now + 1) == {AssocKey(serverUrl + "1", "v1"), AssocKey(serverUrl + "3", "v2")};
    cleaned := store.CleanupAssociations(now + 1);
    live := store.GetAssociation(serverUrl + "1", Some("v1"));
    expired := store.GetAssociation(serverUrl + "1", Some("e1"));
  }

  /** The corrected sweep also reports two deletions on the same data, so the
      test cannot tell the two apart; here the live association stays. */
  method SweepExpiredScenario(serverUrl: string, now: int)
    returns (cleaned: nat, live: Result<Option<Association>>, expired: Result<Option<Association>>)
    requires HasSchemeSeparator(serverUrl)
    ensures cleaned == 2
    ensures live == Ok(Some(Assoc("v1", now - 3600, 7200)))
    ensures expired == Ok(None)
  {
    var store := StoreExpiryMix(serverUrl, now);
    SeparatorSurvivesSuffix(serverUrl, "1");
    assert ExpiredKeys(store.associations, now + 1) == {AssocKey(serverUrl + "1", "e1"), AssocKey(serverUrl + "2", "e2")};
    cleaned := store.CleanupExpiredAssociations(now + 1);
    live := store.GetAssociation(serverUrl + "1", Some("v1"));
    expired := store.GetAssociation(serverUrl + "1", Some("e1"));
  }

  /** A fresh nonce is accepted once and then refused, for a real server URL
      and for the empty one alike; a nonce from an hour after the epoch is
      refused without being stored. */
  method ClaimScenario(now: int, skew: int, serverUrl: string)
    returns (first: bool, second: bool, third: bool, ancient: bool)
    requires 0 <= skew < now - 3600
    ensures first && !second && !third && !ancient
  {
    var store := new MongoDBStore();
    first := store.UseNonce(serverUrl, now, "salt", now, skew);
    second := store.UseNonce(serverUrl, now, "salt", now, skew);
    third := store.UseNonce(serverUrl, now, "salt", now, skew);
    ancient := store.UseNonce(serverUrl, 3600, "salt", now, skew);
  }

  /** Nonces 20000, 10000 and 600 seconds old, claimed under a wide skew and
      swept under a one-hour skew: the two old ones are deleted and can be
      claimed again; the recent one survives and is still refused. */
  method NonceSweepScenario(serverUrl: string, now: int)
    returns (cleaned: nat, again1: bool, again2: bool, againRecent: bool)
    ensures cleaned == 2 && again1 && again2 && !againRecent
  {
    var store := new MongoDBStore();
    var _ := store.UseNonce(serverUrl, now - 20000, "s1", now, 100000);
    var _ := store.UseNonce(serverUrl, now - 10000, "s2", now, 100000);
    var _ := store.UseNonce(serverUrl, now - 600, "s3", now, 100000);
    assert StaleNonces(store.nonces, now, 3600) ==
      {Nonce(serverUrl, now - 20000, "s1"), Nonce(serverUrl, now - 10000, "s2")};
    cleaned := store.CleanupNonces(now, 3600);
    again1 := store.UseNonce(serverUrl, now - 20000, "s1", now, 100000);
    again2 := store.UseNonce(serverUrl, now - 10000, "s2", now, 100000);
    againRecent := store.UseNonce(serverUrl, now - 600, "s3", now, 100000);
  }
}
