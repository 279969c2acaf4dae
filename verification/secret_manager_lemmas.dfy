/**
 * What one or two calls of `get_cfg` do to the store, branch by branch, and
 * how the blob it writes relates to `UserCfg.from_dict`.
 */
module SecretManagerLemmas {
  import opened Wrappers
  import opened JsonValue
  import opened SecretStore
  import opened SecretManager
  import ConfigDataclasses

  /**
   * Cold start: "cfg" is created and seeded with the version alone, the user is
   * prompted, and the merged blob is appended: two versions in all, and the
   * flag `True` is returned. A rejected latitude leaves the seed behind.
   */
  lemma ColdStart(store: Secrets, typedLat: Option<real>)
    requires CfgId !in store
    ensures var run := GetCfgRun(store, typedLat);
            && run.prompted
            && (typedLat.Some? ==>
                  && run.store == store[CfgId := [Seed(), map[VersionKey := Str(CurrentCfgVersion), LatKey := Num(typedLat.value)]]]
                  && run.result == Success(Flag(true)))
            && (typedLat.None? ==>
                  && run.store == store[CfgId := [Seed()]]
                  && run.result == Failure(InvalidLatitude))
  {
    var seeded := store[CfgId := [Seed()]];
    assert Appended(Created(store, CfgId), CfgId, Seed())[CfgId] == [Seed()];
    assert Appended(Created(store, CfgId), CfgId, Seed()) == seeded;
    if typedLat.Some? {
      var merged := map[VersionKey := Str(CurrentCfgVersion), LatKey := Num(typedLat.value)];
      var next := Reconciled(Seed(), typedLat).value;
      assert next.Keys == merged.Keys;
      assert next[VersionKey] == merged[VersionKey] && next[LatKey] == merged[LatKey];
      assert next == merged;
      assert Appended(seeded, CfgId, merged)[CfgId] == [Seed(), merged];
      assert Appended(seeded, CfgId, merged) == store[CfgId := [Seed(), merged]];
    }
  }

  /**
   * Stale version: exactly one version is appended, holding the reconciled
   * blob; the user is prompted exactly when "lat" is missing, and an existing
   * "lat" is kept.
   */
  lemma StaleVersion(store: Secrets, typedLat: Option<real>)
    requires CfgId in store && |store[CfgId]| > 0
    requires VersionKey in LatestOf(store[CfgId]) && !Stamped(LatestOf(store[CfgId]))
    ensures var latest := LatestOf(store[CfgId]);
            var run := GetCfgRun(store, typedLat);
            && (run.prompted <==> LatKey !in latest)
            && (LatKey in latest || typedLat.Some? ==>
                  && run.store == Appended(store, CfgId, Reconciled(latest, typedLat).value)
                  && run.result == Success(Flag(true)))
            && (LatKey !in latest && typedLat.None? ==>
                  run.store == store && run.result == Failure(InvalidLatitude))
  {
  }

  /** Up to date: nothing is written, nobody is prompted, and the latest blob is returned unchanged. */
  lemma UpToDate(store: Secrets, typedLat: Option<real>)
    requires CfgId in store && |store[CfgId]| > 0 && Stamped(LatestOf(store[CfgId]))
    ensures GetCfgRun(store, typedLat) == Run(store, Success(Dict(LatestOf(store[CfgId]))), false)
  {
  }

  /**
   * A "cfg" secret with no version, or whose latest blob lacks "version",
   * raises before anything is written or asked.
   */
  lemma Unreadable(store: Secrets, typedLat: Option<real>)
    requires CfgId in store
    requires |store[CfgId]| == 0 || VersionKey !in LatestOf(store[CfgId])
    ensures var run := GetCfgRun(store, typedLat);
            && run.store == store && !run.prompted
            && run.result == Failure(
                 if |store[CfgId]| == 0 then StoreFailure(VersionNotFound(CfgId, Latest))
                 else MissingKey(VersionKey))
  {
  }

  /**
   * After a call that succeeded, the next call is the read-only branch: it
   * writes nothing, asks nothing and returns the latest blob.
   */
  lemma SecondCallOnlyReads(store: Secrets, first: Option<real>, second: Option<real>)
    requires GetCfgRun(store, first).result.Success?
    ensures var after := GetCfgRun(store, first).store;
            && CfgId in after && |after[CfgId]| > 0
            && GetCfgRun(after, second) == Run(after, Success(Dict(LatestOf(after[CfgId]))), false)
  {
  }

  /**
   * The up-to-date test looks at the version only. A cold start whose latitude
   * is rejected leaves the seed, which already carries the current version, so
   * every later call returns a blob without "lat" and never prompts again.
   */
  lemma RejectedLatitudeIsNeverAskedAgain(store: Secrets, later: Option<real>)
    requires CfgId !in store
    ensures var after := GetCfgRun(store, None).store;
            && GetCfgRun(after, later) == Run(after, Success(Dict(Seed())), false)
            && LatKey !in Seed()
  {
  }

  /** No version of "cfg" has the "open_weather_cfg" section `from_dict` reads first. */
  ghost predicate NoWeatherSection(store: Secrets) {
    CfgId in store ==>
      forall i :: 0 <= i < |store[CfgId]| ==> ConfigDataclasses.OpenWeatherKey !in store[CfgId][i]
  }

  /**
   * `_create_or_update_cfg` copies the keys it read and adds only "lat" and
   * "version", so a store with no "open_weather_cfg" section never gains one:
   * the blob `get_cfg` leaves as the latest "cfg" cannot be read by
   * `from_dict`, which fails with a KeyError for "open_weather_cfg".
   */
  lemma ConfigNeverDecodes(store: Secrets, typedLat: Option<real>)
    requires NoWeatherSection(store)
    ensures var run := GetCfgRun(store, typedLat);
            && NoWeatherSection(run.store)
            && (run.result.Success? ==>
                  ConfigDataclasses.FromDict(LatestOf(run.store[CfgId]))
                  == Failure(ConfigDataclasses.MissingKey(ConfigDataclasses.OpenWeatherKey)))
  {
  }

  /**
   * Two calls of `get_cfg` on a caller whose store has no "cfg": the first
   * creates it and returns `True`, the second returns the stored dictionary.
   */
  method ColdStartThenRead(project: string, lat: real)
    returns (first: Result<CfgValue, CfgError>, second: Result<CfgValue, CfgError>, versions: seq<Blob>)
    ensures first == Success(Flag(true))
    ensures second == Success(Dict(map[VersionKey := Str(CurrentCfgVersion), LatKey := Num(lat)]))
    ensures versions == [Seed(), map[VersionKey := Str(CurrentCfgVersion), LatKey := Num(lat)]]
  {
    var caller := new SecretManagerCaller(project, map[]);
    ColdStart(map[], Some(lat));
    var prompted;
    first, prompted := caller.GetCfg(Some(lat));
    second, prompted := caller.GetCfg(None);
    versions := caller.secrets[CfgId];
  }
}
