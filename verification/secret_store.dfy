/**
 * The remote secret store as `SecretManagerCaller` sees it through its client:
 * named secrets, each an append-only list of versions. Only the behaviour the
 * configuration code relies on is modelled: creating an empty secret, appending
 * a version, and reading a version back (the newest by "latest", or by number,
 * counting from 1 as the service does).
 */
module SecretStore {
  import opened Wrappers
  import opened JsonValue

  /** Secret id to its versions, oldest first. */
  type Secrets = map<string, seq<Blob>>

  /** The `version_id` argument of `access_secret_version`. */
  datatype VersionRef = Latest | Numbered(n: nat)

  /** What the service reports when a read cannot be answered. */
  datatype StoreError =
    | SecretNotFound(id: string)
    | VersionNotFound(id: string, version: VersionRef)

  /** Secret ids the service accepts never contain '/', the separator of resource names. */
  predicate ValidSecretId(id: string) {
    '/' !in id
  }

  predicate ValidIds(store: Secrets) {
    forall id :: id in store ==> ValidSecretId(id)
  }

  /** The newest version of a secret. */
  function LatestOf(versions: seq<Blob>): Blob
    requires |versions| > 0
  {
    versions[|versions| - 1]
  }

  /**
   * The store only ever grows: no secret disappears and every secret's
   * versions are a prefix of its later versions.
   */
  ghost predicate AppendOnly(before: Secrets, after: Secrets) {
    && before.Keys <= after.Keys
    && forall id :: id in before ==> before[id] <= after[id]
  }

  /** The store after `create_secret(id)`: a new secret with no versions. */
  function Created(store: Secrets, id: string): (after: Secrets)
    requires id !in store
    ensures after.Keys == store.Keys + {id}
    ensures AppendOnly(store, after)
    ensures Access(after, id, Latest) == Failure(VersionNotFound(id, Latest))
    ensures forall other :: other in store ==> after[other] == store[other]
  {
    store[id := []]
  }

  /** The store after `add_secret_version(id, blob)`. */
  function Appended(store: Secrets, id: string, blob: Blob): (after: Secrets)
    requires id in store
    ensures after.Keys == store.Keys
    ensures AppendOnly(store, after)
    ensures |after[id]| == |store[id]| + 1
    ensures Access(after, id, Latest) == Success(blob)
    ensures forall n :: 1 <= n <= |store[id]| ==>
              Access(after, id, Numbered(n)) == Access(store, id, Numbered(n))
    ensures forall other :: other in store && other != id ==> after[other] == store[other]
  {
    store[id := store[id] + [blob]]
  }

  /** What `access_secret_version(id, version)` returns, or the error the service raises. */
  function Access(store: Secrets, id: string, version: VersionRef): (r: Result<Blob, StoreError>)
    ensures id !in store ==> r == Failure(SecretNotFound(id))
    ensures version == Latest ==>
              (r.Success? <==> id in store && |store[id]| > 0) &&
              (r.Success? ==> r.value == LatestOf(store[id]))
    ensures version.Numbered? ==>
              (r.Success? <==> id in store && 1 <= version.n <= |store[id]|) &&
              (r.Success? ==> r.value == store[id][version.n - 1])
  {
    if id !in store then Failure(SecretNotFound(id))
    else
      var versions := store[id];
      match version
      case Latest =>
        if |versions| == 0 then Failure(VersionNotFound(id, version))
        else Success(versions[|versions| - 1])
      case Numbered(n) =>
        if 1 <= n <= |versions| then Success(versions[n - 1])
        else Failure(VersionNotFound(id, version))
  }

  /** Appending twice reads back in order: version k+1 is the first blob, "latest" the second. */
  lemma AppendedTwice(store: Secrets, id: string, first: Blob, second: Blob)
    requires id in store
    ensures var after := Appended(Appended(store, id, first), id, second);
            && after[id] == store[id] + [first, second]
            && Access(after, id, Numbered(|store[id]| + 1)) == Success(first)
            && Access(after, id, Latest) == Success(second)
  {
  }
}
