# openid-mongodb store, modelled in Dafny

`MongoDBStore` is a python-openid storage back-end that keeps its state in two
MongoDB collections:

- **associations**: one document per `(server_url, handle)` pair. It holds the
  serialized association and an `expires` stamp. The store can insert a
  document, look one up by handle, pick the latest-issued association of a
  server, remove one (reporting whether it existed), and sweep by `expires`.
- **nonces**: one document per `(server_url, timestamp, salt)` triple, under a
  unique key. `useNonce` refuses a timestamp more than the skew away from the
  clock. Otherwise it inserts the triple and turns the duplicate-key error into
  `False`: a nonce is accepted at most once. `cleanupNonces` deletes every nonce
  outside `[now - skew, now + skew]`.

The model is the class `OpenIdMongoDb.MongoDBStore`. Its field `associations` is
a `map` from the literal key `AssocKey(serverUrl, handle)` to the document. Its
field `nonces` is a `set` of `Nonce` triples. Each mutating method states its
new state as a function of the old one. The functions are in `AssociationSpec`
and `NonceSpec`, and the lemmas beside them prove the store's properties.
`Valid()` is the class invariant: every document repeats its key, and its
association carries the handle it is filed under.

The clock (`time.time()`) and python-openid's `nonce.SKEW` are integer
parameters `now` and `skew` of each call. The tests change `SKEW` between calls,
so `skew` is a per-call parameter. Serialization is the identity: a document
holds the `Association` value itself.

Files:

- `records.dfy`: the datatypes.
- `urls.dfy`: `str.find` and the `'://'` check.
- `association_spec.dfy`, `nonce_spec.dfy`: the collections as values, with their lemmas.
- `store.dfy`: the class.
- `scenarios.dfy`: the test driver's scenarios, replayed against the method contracts.

Where the code and the intended design disagree, the model follows the code:

- **Re-storing an existing key keeps the first document.** `storeAssociation`
  issues an unacknowledged `insert`, not an upsert. A second store under a key
  that is already taken raises nothing and changes nothing. It is not "last
  write wins". The test only re-stores an identical association, so it cannot
  tell the two apart (`StoreAgainKeepsFirst`).
- **The association sweep deletes the live documents.** It selects
  `expires > now`. See Findings. The class keeps this method as written
  (`CleanupAssociations`) and also offers the corrected sweep
  (`CleanupExpiredAssociations`).
- **`getAssociation(url)` builds a list of the server's associations, sorts it
  by `issued` and returns the last element.** The model reads the query cursor
  in an unspecified order, then makes one pass that keeps the LAST element with
  the greatest `issued`. A stable ascending sort puts that same element last.

## Model

| member | source | states |
|---|---|---|
| `Urls.Find` | openidmongodb/__init__.py:30 | `str.find`: -1 exactly when the pattern occurs nowhere; otherwise the pattern occurs at the result and at no earlier index |
| `Urls.HasSchemeSeparatorIff` | openidmongodb/__init__.py:30-31 | a URL passes the check exactly when `"://"` occurs somewhere in it |
| `Scenarios.ServerUrlIsWellFormed` | tests/test_mongodbstore.py:37 | the tests' server URL passes the check |
| `Scenarios.BadServerUrlIsRejected` | tests/test_mongodbstore.py:40 | the tests' URL `http:www.openid.com/` fails the check |
| `AssociationSpec.ExpiresIn` | openidmongodb/__init__.py:37 | the remaining lifetime is 0 exactly when `issued + lifetime <= now`; while the association is live, `now` plus it is exactly `issued + lifetime` |
| `AssociationSpec.NewDoc` | openidmongodb/__init__.py:32-38 | the stored document carries the URL, the handle and the association, and its `expires` is the later of `now` and `issued + lifetime` |
| `AssociationSpec.Lookup` | openidmongodb/__init__.py:58-64 | a lookup by URL and handle finds something exactly when a document is filed under that key, and what it finds has the handle asked for |
| `AssociationSpec.Insert` | openidmongodb/__init__.py:32-38 | after the insert the key is present; every existing document is unchanged (the first one wins); a new key holds the stored association; key/document consistency is preserved |
| `AssociationSpec.Remove` | openidmongodb/__init__.py:72-75 | exactly the key `(url, handle)` is gone; every other document is unchanged; consistency is preserved |
| `AssociationSpec.UnexpiredKeys` | openidmongodb/__init__.py:79-80 | the sweep as written selects exactly the documents with `expires > now` |
| `AssociationSpec.SweepUnexpired` | openidmongodb/__init__.py:78-82 | after the sweep as written, a document remains exactly when it was there with `expires <= now`, and it is unchanged |
| `AssociationSpec.ExpiredKeys` | openidmongodb/__init__.py:79-80 | the corrected sweep selects exactly the documents with `expires < now` |
| `AssociationSpec.SweepExpired` | openidmongodb/__init__.py:78-82 | after the corrected sweep, a document remains exactly when it was there with `expires >= now`, and it is unchanged |
| `AssociationSpec.LookupAfterStore` | openidmongodb/__init__.py:32-38 | lookup by handle after a store finds an association with that handle; it is the stored one when the key was new, and the earlier one otherwise |
| `AssociationSpec.StoreAgainKeepsFirst` | openidmongodb/__init__.py:32 | a second store under the same key leaves the collection exactly as the first store left it |
| `AssociationSpec.StoreKeepsOthers` | openidmongodb/__init__.py:32-38 | a store changes the lookup of no other key |
| `AssociationSpec.MaxIssuedExists` | openidmongodb/__init__.py:54-56 | every non-empty set of documents has one whose `issued` is greatest |
| `AssociationSpec.LatestExistsIffHasServer` | openidmongodb/__init__.py:46-56 | a latest-issued association exists for a server exactly when some document is filed for that server |
| `AssociationSpec.LatestIssuedIsDetermined` | openidmongodb/__init__.py:54-56 | any two latest-issued associations of one server have the same `issued` |
| `AssociationSpec.StrictlyLatestIsUnique` | openidmongodb/__init__.py:54-56 | a document issued strictly after all others of its server holds the one and only latest association |
| `AssociationSpec.StoreNewerBecomesLatest` | openidmongodb/__init__.py:46-56 | storing an association issued after all others of its server makes it the only latest one, whatever its lifetime |
| `AssociationSpec.RemoveOtherKeepsLatest` | openidmongodb/__init__.py:66-76 | removing a handle other than the latest one's keeps that association the latest |
| `AssociationSpec.RemoveOnce` | openidmongodb/__init__.py:72-76 | after a removal the key is absent and lookup finds nothing; a second removal changes nothing |
| `AssociationSpec.RemoveKeepsOthers` | openidmongodb/__init__.py:72-74 | removing one key leaves the lookup of every other key unchanged |
| `AssociationSpec.RemovedCount` | openidmongodb/__init__.py:79-82 | deleting a set of present keys removes exactly that many documents |
| `AssociationSpec.SweepUnexpiredDeletesLive` | openidmongodb/__init__.py:78-82 | the sweep as written deletes an association that is still live at the sweep (Findings) |
| `AssociationSpec.SweepUnexpiredKeepsExpired` | openidmongodb/__init__.py:78-82 | the sweep as written keeps an association that had already expired when stored, so lookup still returns it |
| `AssociationSpec.SweepExpiredKeepsLive` | openidmongodb/__init__.py:78-82 | the corrected sweep keeps an association that is still live |
| `AssociationSpec.SweepExpiredDeletesExpired` | openidmongodb/__init__.py:78-82 | the corrected sweep deletes any association stored before the sweep whose lifetime ended before the sweep, whether it was live or already expired when stored |
| `NonceSpec.StaleIffOutsideSkew` | openidmongodb/__init__.py:85-107 | the cleanup's `$gt now+skew / $lt now-skew` test selects exactly the timestamps that `useNonce`'s `abs(t - now) > skew` test rejects |
| `NonceSpec.Claim` | openidmongodb/__init__.py:84-102 | the claim succeeds exactly when the timestamp is within the skew and the triple is new; on success the triple is added, otherwise nothing changes; within the skew the triple is present afterwards |
| `NonceSpec.StaleNonces` | openidmongodb/__init__.py:105-107 | selects exactly the nonces with timestamp above `now + skew` or below `now - skew` |
| `NonceSpec.Sweep` | openidmongodb/__init__.py:104-108 | after cleanup a nonce remains exactly when it was there with timestamp in `[now - skew, now + skew]` |
| `NonceSpec.SweepCount` | openidmongodb/__init__.py:108-109 | the cleanup removes exactly as many nonces as it selected |
| `NonceSpec.ClaimAtMostOnce` | openidmongodb/__init__.py:90-102 | after a successful claim, every later claim of the same triple fails and changes nothing, whatever its clock and skew |
| `NonceSpec.SurvivorStaysClaimed` | openidmongodb/__init__.py:104-109 | a claimed nonce inside the window survives cleanup, so claiming it again fails |
| `NonceSpec.SweptCanBeClaimedAgain` | openidmongodb/__init__.py:104-109 | a nonce outside the window is deleted by cleanup and can be claimed again under a window that admits it |
| `OpenIdMongoDb.LatestIssued` | openidmongodb/__init__.py:54-56 | index of the element a stable ascending sort by `issued` puts last: nothing has a greater `issued`, and everything after it has a smaller one |
| `OpenIdMongoDb.MongoDBStore.constructor` | openidmongodb/__init__.py:18-24 | a store over empty collections that satisfies the invariant |
| `OpenIdMongoDb.MongoDBStore.StoreAssociation` | openidmongodb/__init__.py:26-38 | a URL without `://` gives `BadServerUrl` and leaves the state alone; otherwise the collection becomes `Insert(old, ...)`; the nonces are untouched |
| `OpenIdMongoDb.MongoDBStore.GetAssociation` | openidmongodb/__init__.py:40-64 | a URL without `://` gives `BadServerUrl`; with a handle, the association under that key or none; without one, none exactly when no document is for the server, and otherwise an association whose `issued` is at least that of every other document for the server, whatever the expiry |
| `OpenIdMongoDb.MongoDBStore.RemoveAssociation` | openidmongodb/__init__.py:66-76 | a URL without `://` gives `BadServerUrl` and changes nothing; otherwise the result says whether the key was present, and the collection becomes `Remove(old, ...)` |
| `OpenIdMongoDb.MongoDBStore.CleanupAssociations` | openidmongodb/__init__.py:78-82 | as written: deletes exactly the documents with `expires > now` and returns how many it deleted |
| `OpenIdMongoDb.MongoDBStore.CleanupExpiredAssociations` | openidmongodb/__init__.py:78-82 | corrected: deletes exactly the documents with `expires < now` and returns how many it deleted |
| `OpenIdMongoDb.MongoDBStore.UseNonce` | openidmongodb/__init__.py:84-102 | result and new nonce set are `Claim(old nonces, (url, t, salt), now, skew)`; no URL check, so an empty URL works; associations untouched |
| `OpenIdMongoDb.MongoDBStore.CleanupNonces` | openidmongodb/__init__.py:104-109 | the nonce set becomes `Sweep(old, now, skew)`; returns how many it deleted |
| `Scenarios.StoreRotation` | tests/test_mongodbstore.py:100-122 | storing three associations issued at now, now+1 and now+2 into an empty store gives exactly three documents |
| `Scenarios.LatestIssuedScenario` | tests/test_mongodbstore.py:103-134 | the latest-issued association is served although it expires first; the oldest is still served by its handle; removing a middle one reports true and keeps the latest |
| `Scenarios.RemoveLatestScenario` | tests/test_mongodbstore.py:136-140 | removing a removed key reports false; once the two newer ones are gone, the oldest is served |
| `Scenarios.BadServerUrlScenario` | tests/test_mongodbstore.py:73-82 | store, lookup and removal under `http:www.openid.com/` fail, and the earlier state is still served |
| `Scenarios.StoreExpiryMix` | tests/test_mongodbstore.py:157-171 | a live and an expired association under URL + "1", an expired one under URL + "2" and a live one under URL + "3", stored at `now`, give these four documents |
| `Scenarios.SweepAsWrittenScenario` | tests/test_mongodbstore.py:173-174 | the sweep as written reports 2, the count the test expects, yet it deleted a live association and kept an expired one |
| `Scenarios.SweepExpiredScenario` | tests/test_mongodbstore.py:173-174 | the corrected sweep also reports 2 on the same data, keeping the live association and deleting the expired one |
| `Scenarios.ClaimScenario` | tests/test_mongodbstore.py:184-198 | a fresh nonce is accepted once and refused on the next two calls, for any URL including `''`; a nonce stamped one hour after the epoch is refused |
| `Scenarios.NonceSweepScenario` | tests/test_mongodbstore.py:201-226 | under a one-hour skew, cleanup removes the two old nonces and reports 2; they can be claimed again, and the recent one is still refused |

## Findings

| source | as written | input that shows it | evidently intended | confidence | as-written member | corrected member |
|---|---|---|---|---|---|---|
| openidmongodb/__init__.py:80 | `cleanupAssociations` deletes the documents with `expires > now`, which are the live ones | store an association with `issued = now - 3600`, `lifetime = 7200` at `now`, then sweep at `now + 1`: it is deleted, while one stored already expired is kept and still returned by `getAssociation`; the test expects 2 deletions and would get 2 either way | delete the documents whose `expires` is earlier than `now` | high (not executed) | `AssociationSpec.SweepUnexpiredDeletesLive` | `AssociationSpec.SweepExpiredKeepsLive` |

## Left out

- The pymongo connection, database and collection setup (openidmongodb/__init__.py:18-24) is network I/O. The constructor starts from empty collections, as a freshly created test database does.
- Logging and the `log_debug` flag only observe; they change no state.
- The `_id` is derived with `hash((...))`, and hash collisions are possible. The model keys documents by the literal tuple, so two different keys never collide. For the same reason, the extra `server_url`/`handle` filters of the lookup and the removal add nothing beyond the key.
- The `safe=True` acknowledgement flags and MongoDB delivery semantics are left out. Every model operation completes synchronously. The unacknowledged `insert` of `storeAssociation` is modelled by its effect: a duplicate key changes nothing.
- `Association.serialize`, `deserialize` and `expiresIn` belong to python-openid, which is not part of this model. Serialization is the identity. `ExpiresIn` assumes python-openid's `max(0, issued + lifetime - now)`.
- `time.time()` returns a float, and `cleanupNonces` reads it twice. The model takes one integer `now` per call.
- The atomicity of the unique-key insert under concurrent callers is a database guarantee. The model is sequential.
- `OpenIdMongoDb.MongoDBStore.GetAssociation`: when several documents of a server share the greatest `issued`, the source returns whichever of them the database cursor yields last. The cursor order is unspecified, so the contract only promises one of them.
- The in-place sort at openidmongodb/__init__.py:54 is not modelled as a sort. `LatestIssued` computes its only observable effect: which element ends up last.
- Python exceptions are not modelled. Where the source raises `ValueError` for a bad URL, the model returns `Err(BadServerUrl(url))`.
