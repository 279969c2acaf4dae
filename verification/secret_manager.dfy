/**
 * Configuration reconciliation of `SecretManagerCaller`
 * (src/device_modules/secret_manager_caller.py).
 *
 * The configuration lives in the secret "cfg". `get_cfg` creates and seeds it
 * when it is missing, rewrites it when its stored version differs from the
 * current one, and otherwise reads it back. A rewrite keeps every stored key,
 * asks the user for "lat" only when it is missing, stamps the current version
 * and appends the result as a new version.
 *
 * The first half of this module states that behaviour as functions over the
 * store's contents (`CreateOrUpdateRun`, `GetCfgRun`); the class at the end
 * performs it step by step, as the source does, and is proved against them.
 * The user's answer to the latitude prompt is a parameter: `Some(x)` is the
 * number `float(input(...))` yields, `None` stands for text `float` rejects.
 */
module SecretManager {
  import opened Wrappers
  import opened JsonValue
  import opened SecretStore

  /** The version every configuration this code writes is stamped with. */
  const CurrentCfgVersion: string := "0.0.2"
  /** The id of the secret that holds the configuration. */
  const CfgId: string := "cfg"
  const LatKey: string := "lat"

  /** The exceptions that can escape `get_cfg`. */
  datatype CfgError =
    | StoreFailure(cause: StoreError)  // the service could not answer a read
    | MissingKey(key: string)          // KeyError: the stored blob has no such key
    | InvalidLatitude                  // ValueError: float() rejected the entered latitude

  /**
   * What `get_cfg` returns and stores in `self.cfg`: the flag `True` that
   * `_create_or_update_cfg` returns after a write, or the stored dictionary.
   */
  datatype CfgValue = Flag(ok: bool) | Dict(blob: Blob)

  /** The outcome of one call: the store afterwards, the result, and whether the user was prompted. */
  datatype Run<T> = Run(store: Secrets, result: Result<T, CfgError>, prompted: bool)

  /** The blob seeded into a freshly created "cfg" secret. */
  function Seed(): Blob {
    map[VersionKey := Str(CurrentCfgVersion)]
  }

  /** A blob carrying the current version. */
  predicate Stamped(blob: Blob) {
    VersionKey in blob && blob[VersionKey] == Str(CurrentCfgVersion)
  }

  /** A blob carrying the current version and the one reconciled field. */
  predicate Complete(blob: Blob) {
    Stamped(blob) && LatKey in blob
  }

  /**
   * Only "cfg" may change: it may be created, and versions may be appended to
   * it; every other secret stays as it was.
   */
  ghost predicate OnlyCfgTouched(before: Secrets, after: Secrets) {
    && AppendOnly(before, after)
    && after.Keys <= before.Keys + {CfgId}
    && forall id :: id in before && id != CfgId ==> after[id] == before[id]
  }

  // ---------------------------------------------------------------------------
  // _cfg_exists

  /** The text after the last '/' of a name, or the whole name when it has none (`rsplit("/", 1)[-1]`). */
  function LastSegment(name: string): (seg: string)
    ensures '/' !in seg
    ensures |seg| <= |name| && seg == name[|name| - |seg|..]
    ensures |seg| < |name| ==> name[|name| - |seg| - 1] == '/'
    decreases |name|
  {
    if name == [] || name[|name| - 1] == '/' then []
    else LastSegment(name[..|name| - 1]) + [name[|name| - 1]]
  }

  /** The resource name under which the service lists a secret of the project. */
  function ResourceName(project: string, id: string): string {
    "projects/" + project + "/secrets/" + id
  }

  /** The names `list_secrets` returns for the project. */
  function Listing(project: string, store: Secrets): set<string> {
    set id | id in store :: ResourceName(project, id)
  }

  /** The ids `_cfg_exists` extracts from the listed names. */
  function ListedIds(names: set<string>): set<string> {
    set name | name in names :: LastSegment(name)
  }

  /** The test of `_cfg_exists`: "cfg" is among the extracted ids. */
  predicate CfgListed(names: set<string>) {
    CfgId in ListedIds(names)
  }

  lemma {:induction false} LastSegmentAfterSlash(prefix: string, id: string)
    requires '/' !in id
    ensures LastSegment(prefix + "/" + id) == id
    decreases |id|
  {
    var name := prefix + "/" + id;
    if id != [] {
      var init := id[..|id| - 1];
      assert name[..|name| - 1] == prefix + "/" + init;
      assert name[|name| - 1] == id[|id| - 1];
      assert id[|id| - 1] in id;
      LastSegmentAfterSlash(prefix, init);
      assert id == init + [id[|id| - 1]];
    }
  }

  /** A secret's id is recovered from its resource name. */
  lemma LastSegmentOfResourceName(project: string, id: string)
    requires ValidSecretId(id)
    ensures LastSegment(ResourceName(project, id)) == id
  {
    assert ResourceName(project, id) == ("projects/" + project + "/secrets") + "/" + id;
    LastSegmentAfterSlash("projects/" + project + "/secrets", id);
  }

  /** The ids extracted from the listing are exactly the store's secrets. */
  lemma ListedIdsAreSecrets(project: string, store: Secrets)
    requires ValidIds(store)
    ensures ListedIds(Listing(project, store)) == store.Keys
    ensures CfgListed(Listing(project, store)) <==> CfgId in store
  {
    forall id | id in store
      ensures LastSegment(ResourceName(project, id)) == id
    {
      LastSegmentOfResourceName(project, id);
    }
    forall seg | seg in ListedIds(Listing(project, store))
      ensures seg in store
    {
      var id :| id in store && seg == LastSegment(ResourceName(project, id));
    }
    forall id | id in store
      ensures id in ListedIds(Listing(project, store))
    {
      assert ResourceName(project, id) in Listing(project, store);
    }
  }

  // ---------------------------------------------------------------------------
  // _cfg_version_up_to_date

  /**
   * `_cfg_version_up_to_date`: reads the latest "cfg" and compares its
   * "version" with the current version, by plain equality.
   */
  function VersionUpToDate(store: Secrets): (r: Result<bool, CfgError>)
    ensures r.Success? <==>
              CfgId in store && |store[CfgId]| > 0 && VersionKey in LatestOf(store[CfgId])
    ensures r == Success(true) <==> CfgId in store && |store[CfgId]| > 0 && Stamped(LatestOf(store[CfgId]))
    ensures CfgId in store && |store[CfgId]| > 0 && VersionKey !in LatestOf(store[CfgId]) ==>
              r == Failure(MissingKey(VersionKey))
  {
    match Access(store, CfgId, Latest)
    case Failure(e) => Failure(StoreFailure(e))
    case Success(current) =>
      if VersionKey in current then Success(current[VersionKey] == Str(CurrentCfgVersion))
      else Failure(MissingKey(VersionKey))
  }

  // ---------------------------------------------------------------------------
  // _create_or_update_cfg

  /**
   * The blob `_create_or_update_cfg` writes back: the blob it read, with "lat"
   * added when it was missing, stamped with the current version.
   */
  function Reconciled(cfg: Blob, typedLat: Option<real>): (r: Result<Blob, CfgError>)
    ensures r.Failure? <==> LatKey !in cfg && typedLat.None?
    ensures r.Failure? ==> r.error == InvalidLatitude
    ensures r.Success? ==> Complete(r.value)
    ensures r.Success? ==> r.value.Keys == cfg.Keys + {VersionKey, LatKey}
    ensures r.Success? ==> forall k :: k in cfg && k != VersionKey ==> r.value[k] == cfg[k]
    ensures r.Success? && LatKey !in cfg ==> r.value[LatKey] == Num(typedLat.value)
  {
    if LatKey in cfg then Success(cfg[VersionKey := Str(CurrentCfgVersion)])
    else
      match typedLat
      case None => Failure(InvalidLatitude)
      case Some(lat) => Success(cfg[LatKey := Num(lat)][VersionKey := Str(CurrentCfgVersion)])
  }

  /**
   * One call of `_create_or_update_cfg(create)`: with `create`, make "cfg" and
   * seed it; then read the latest blob, reconcile it and append the result.
   * An exception leaves whatever was already written (the seed included).
   */
  function CreateOrUpdateRun(store: Secrets, create: bool, typedLat: Option<real>): (run: Run<bool>)
    requires create ==> CfgId !in store
    ensures OnlyCfgTouched(store, run.store)
    ensures run.result.Success? ==> run.result.value
    ensures run.result.Success? ==>
              CfgId in run.store && |run.store[CfgId]| > 0 && Complete(LatestOf(run.store[CfgId]))
    ensures run.result.Success? ==>
              var seeded := if create then store[CfgId := [Seed()]] else store;
              && CfgId in seeded && |seeded[CfgId]| > 0
              && Reconciled(LatestOf(seeded[CfgId]), typedLat).Success?
              && run.store == Appended(seeded, CfgId, Reconciled(LatestOf(seeded[CfgId]), typedLat).value)
    ensures run.result.Success? && create ==> |run.store[CfgId]| == 2
    ensures run.result.Success? && !create ==>
              CfgId in store && |run.store[CfgId]| == |store[CfgId]| + 1
    ensures run.result.Failure? ==>
              run.store == (if create then store[CfgId := [Seed()]] else store)
    ensures create ==> run.prompted
    ensures !create ==>
              (run.prompted <==> CfgId in store && |store[CfgId]| > 0 && LatKey !in LatestOf(store[CfgId]))
  {
    var seeded := if create then Appended(Created(store, CfgId), CfgId, Seed()) else store;
    assert create ==> seeded[CfgId] == [Seed()] && seeded == store[CfgId := [Seed()]];
    match Access(seeded, CfgId, Latest)
    case Failure(e) => Run(seeded, Failure(StoreFailure(e)), false)
    case Success(cfg) =>
      match Reconciled(cfg, typedLat)
      case Failure(e) => Run(seeded, Failure(e), LatKey !in cfg)
      case Success(next) => Run(Appended(seeded, CfgId, next), Success(true), LatKey !in cfg)
  }

  /** The value `get_cfg` stores in `self.cfg` after a write: the flag returned by `_create_or_update_cfg`. */
  function AsCfgValue(r: Result<bool, CfgError>): Result<CfgValue, CfgError> {
    match r
    case Success(ok) => Success(Flag(ok))
    case Failure(e) => Failure(e)
  }

  // ---------------------------------------------------------------------------
  // get_cfg

  /**
   * One call of `get_cfg`: create when "cfg" is missing, rewrite when its
   * version is stale, read it back otherwise.
   */
  function GetCfgRun(store: Secrets, typedLat: Option<real>): (run: Run<CfgValue>)
    ensures OnlyCfgTouched(store, run.store)
    ensures run.result.Success? ==>
              CfgId in run.store && |run.store[CfgId]| > 0 && Stamped(LatestOf(run.store[CfgId]))
    ensures run.result.Success? && run.result.value.Flag? ==>
              run.result.value.ok && Complete(LatestOf(run.store[CfgId]))
    ensures run.result.Success? && run.result.value.Dict? ==>
              run.store == store && run.result.value.blob == LatestOf(store[CfgId]) && !run.prompted
    ensures run.result.Failure? ==>
              run.store == store || (CfgId !in store && run.store == store[CfgId := [Seed()]])
  {
    if CfgId !in store then
      var run := CreateOrUpdateRun(store, true, typedLat);
      Run(run.store, AsCfgValue(run.result), run.prompted)
    else
      match VersionUpToDate(store)
      case Failure(e) => Run(store, Failure(e), false)
      case Success(upToDate) =>
        if !upToDate then
          var run := CreateOrUpdateRun(store, false, typedLat);
          Run(run.store, AsCfgValue(run.result), run.prompted)
        else
          match Access(store, CfgId, Latest)
          case Success(current) => Run(store, Success(Dict(current)), false)
          case Failure(e) => Run(store, Failure(StoreFailure(e)), false)
  }

  // ---------------------------------------------------------------------------
  // The caller object

  /**
   * `SecretManagerCaller`: `secrets` is the state of the remote store seen
   * through the client, `cfg` the attribute `self.cfg` (`None` until `get_cfg`
   * assigns it).
   */
  class SecretManagerCaller {
    const project: string
    var secrets: Secrets
    var cfg: Option<CfgValue>

    ghost predicate Valid()
      reads this
    {
      ValidIds(secrets)
    }

    /** A caller bound to `project`, whose store currently holds `existing`. */
    constructor (project: string, existing: Secrets)
      requires ValidIds(existing)
      ensures Valid()
      ensures this.project == project && secrets == existing && cfg == None
    {
      this.project := project;
      secrets := existing;
      cfg := None;
    }

    /** The names `list_secrets` returns. */
    function ListSecrets(): set<string>
      reads this
    {
      Listing(project, secrets)
    }

    /** `create_secret`: the service refuses an id already in use or one containing '/'. */
    method CreateSecret(id: string)
      requires Valid()
      requires ValidSecretId(id) && id !in secrets
      modifies this`secrets
      ensures Valid()
      ensures secrets == Created(old(secrets), id)
    {
      secrets := secrets[id := []];
    }

    /** `add_secret_version`: the service refuses a secret that does not exist. */
    method AddSecretVersion(id: string, payload: Blob)
      requires id in secrets
      modifies this`secrets
      ensures secrets == Appended(old(secrets), id, payload)
      ensures old(Valid()) ==> Valid()
    {
      secrets := secrets[id := secrets[id] + [payload]];
    }

    /** `access_secret_version`. */
    method AccessSecretVersion(id: string, version: VersionRef) returns (r: Result<Blob, StoreError>)
      ensures r == Access(secrets, id, version)
    {
      r := Access(secrets, id, version);
    }

    /** `_cfg_exists`: whether some listed secret name ends in "/cfg". */
    method CfgExists() returns (found: bool)
      requires Valid()
      ensures found <==> CfgId in secrets
    {
      var names := ListSecrets();
      found := CfgListed(names);
      ListedIdsAreSecrets(project, secrets);
    }

    /** `_cfg_version_up_to_date`. */
    method CfgVersionUpToDate() returns (r: Result<bool, CfgError>)
      ensures r == VersionUpToDate(secrets)
    {
      r := VersionUpToDate(secrets);
    }

    /**
     * `_create_or_update_cfg`: the blob read is updated in place (the "lat"
     * prompt, then the version stamp) and appended as a new version.
     */
    method CreateOrUpdateCfg(create: bool, typedLat: Option<real>) returns (r: Result<bool, CfgError>, prompted: bool)
      requires Valid()
      requires create ==> CfgId !in secrets
      modifies this`secrets
      ensures Valid()
      ensures Run(secrets, r, prompted) == CreateOrUpdateRun(old(secrets), create, typedLat)
    {
      if create {
        CreateSecret(CfgId);
        AddSecretVersion(CfgId, Seed());
      }
      var current := AccessSecretVersion(CfgId, Latest);
      prompted := false;
      match current
      case Failure(e) =>
        r := Failure(StoreFailure(e));
      case Success(blob) =>
        var cfg := blob;
        if LatKey !in cfg {
          prompted := true;
          match typedLat
          case None =>
            return Failure(InvalidLatitude), prompted;
          case Some(lat) =>
            cfg := cfg[LatKey := Num(lat)];
        }
        cfg := cfg[VersionKey := Str(CurrentCfgVersion)];
        AddSecretVersion(CfgId, cfg);
        r := Success(true);
    }

    /** `get_cfg`: `self.cfg` is assigned only when no exception escapes. */
    method GetCfg(typedLat: Option<real>) returns (r: Result<CfgValue, CfgError>, prompted: bool)
      requires Valid()
      modifies this
      ensures Valid()
      ensures Run(secrets, r, prompted) == GetCfgRun(old(secrets), typedLat)
      ensures cfg == (if r.Success? then Some(r.value) else old(cfg))
    {
      var found := CfgExists();
      if !found {
        var written;
        written, prompted := CreateOrUpdateCfg(true, typedLat);
        r := AsCfgValue(written);
      } else {
        var upToDate := CfgVersionUpToDate();
        prompted := false;
        match upToDate
        case Failure(e) =>
          r := Failure(e);
        case Success(current) =>
          if !current {
            var written;
            written, prompted := CreateOrUpdateCfg(false, typedLat);
            r := AsCfgValue(written);
          } else {
            var blob := AccessSecretVersion(CfgId, Latest);
            r := match blob
              case Success(b) => Success(Dict(b))
              case Failure(e) => Failure(StoreFailure(e));
          }
      }
      if r.Success? {
        cfg := Some(r.value);
      }
    }
  }
}
