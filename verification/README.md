# Configuration reconciliation of google-smart-home, in Dafny

This project models the configuration code of the smart-home assistant.
It covers two pieces, modelled separately because nothing in the code connects them.

1. **`SecretManagerCaller`** (`src/device_modules/secret_manager_caller.py`).
   The user's configuration is kept in a secret named `cfg` on a remote secret store.
   Each secret holds an append-only list of versions.
   `get_cfg` has three branches:
   - `cfg` is missing: create it, seed it with `{"version": "0.0.2"}`, then reconcile.
   - The latest version's `"version"` differs from `"0.0.2"`: reconcile.
   - Otherwise: read the latest version back.

   Reconciling (`_create_or_update_cfg`) reads the latest blob and keeps every key of it.
   It asks the user for `"lat"` only when that key is missing, and stamps the current version.
   It then appends the result as a new version and returns `True`.
2. **`UserCfg.from_dict`** (`src/configurations/config_dataclasses.py`).
   It builds the typed records `OpenWeatherCfg` and `GoogleCalendarCfg` from nested dictionaries and copies `version`.

Modules:

- `Wrappers`: `Option` and `Result`. Python exceptions become `Failure` values.
- `JsonValue`: the parsed JSON values the secrets hold.
- `SecretStore`: the remote store's semantics as functions over `map<string, seq<Blob>>`: create, append a version, read a version. It also defines the append-only relation.
- `SecretManager`:
  - the reconciliation as functions over the store's contents (`VersionUpToDate`, `Reconciled`, `CreateOrUpdateRun`, `GetCfgRun`);
  - the class `SecretManagerCaller`, whose methods update the store field and `self.cfg` step by step, as the source does. Each method is proved equal to those functions.
- `SecretManagerLemmas`: what `get_cfg` does on each branch and over two calls, plus a client of the class.
- `ConfigDataclasses`: the records and `FromDict`, with its inverse `ToDict` as a reference definition.

What the model shows about the code as written:

- **`get_cfg` does not return the configuration after a write.**
  On the create and update branches it returns (and stores in `self.cfg`) the flag `True` from `_create_or_update_cfg`.
  Only the up-to-date branch returns the dictionary (`SecretManager.GetCfgRun`, `SecretManagerLemmas.ColdStartThenRead`).
  The docstring of `get_cfg` (secret_manager_caller.py:149-150) promises a dictionary on every branch; the model follows the code.
- **The up-to-date test compares the version by plain equality and nothing else.**
  The seed written on a cold start already carries the current version.
  So if the latitude typed on a cold start is rejected by `float`, the seed stays as the latest version.
  Every later call then returns a blob without `"lat"` and never prompts again (`SecretManagerLemmas.RejectedLatitudeIsNeverAskedAgain`).
- **Failures are not atomic on the create branch.**
  An exception after seeding leaves the created secret and its seed behind (`SecretManager.CreateOrUpdateRun`).
- **The store and the decoder do not fit together.**
  Reconciliation only adds the top-level keys `"lat"` and `"version"`; it never adds an `"open_weather_cfg"` section.
  So no blob this code writes into a store that starts without that section decodes: `from_dict` fails with a KeyError for `open_weather_cfg` (`SecretManagerLemmas.ConfigNeverDecodes`).

Parameters that stand for I/O:

- The remote store's current contents and the project name are given to the constructor.
- The latitude prompt is a parameter `typedLat: Option<real>`. `Some(x)` is the number `float(input(...))` produces. `None` stands for text that `float` rejects (a ValueError).
- Each `get_cfg` result comes with a flag `prompted` saying whether the user was asked.

## Model

| member | source | states |
|---|---|---|
| `SecretStore.Created` | src/device_modules/secret_manager_caller.py:18-41 | `create_secret` adds the new id with no versions and keeps everything else, so the store grows; reading "latest" from the new secret fails |
| `SecretStore.Appended` | src/device_modules/secret_manager_caller.py:43-74 | `add_secret_version` adds exactly one version: "latest" then reads the appended blob; every earlier numbered version reads as before; other secrets are unchanged; the store relation is append-only |
| `SecretStore.Access` | src/device_modules/secret_manager_caller.py:76-91 | `access_secret_version` fails for a missing secret; "latest" succeeds iff the secret has a version and returns the last one; version n succeeds iff 1 <= n <= count and returns the n-th |
| `SecretStore.AppendedTwice` | src/device_modules/secret_manager_caller.py:43-91 | two appends leave the two blobs in order: the first at the next version number, the second as "latest" |
| `SecretManager.LastSegment` | src/device_modules/secret_manager_caller.py:97-100 | `rsplit("/", 1)[-1]` yields a '/'-free suffix of the name, preceded by '/' unless it is the whole name |
| `SecretManager.LastSegmentAfterSlash` | src/device_modules/secret_manager_caller.py:97-100 | the segment after a final "/" followed by a '/'-free id is that id |
| `SecretManager.LastSegmentOfResourceName` | src/device_modules/secret_manager_caller.py:96-100 | a listed resource name gives back its secret's id |
| `SecretManager.ListedIdsAreSecrets` | src/device_modules/secret_manager_caller.py:93-106 | the ids extracted from the listing (`ListedIds`, the comprehension at lines 97-100) are exactly the store's secrets, so the `_cfg_exists` test (`CfgListed`, line 103) holds iff "cfg" is a secret |
| `SecretManager.VersionUpToDate` | src/device_modules/secret_manager_caller.py:108-113 | succeeds iff "cfg" has a latest version with a "version" key (else KeyError or the store's error); true iff that value equals "0.0.2", by plain equality |
| `SecretManager.Reconciled` | src/device_modules/secret_manager_caller.py:130-139 | the rewritten blob keeps every previous key except "version" with its value, never overwrites an existing "lat", adds the entered latitude only when "lat" is missing, and carries the current version; it fails (ValueError) exactly when "lat" is missing and the entry is rejected |
| `SecretManager.CreateOrUpdateRun` | src/device_modules/secret_manager_caller.py:115-143 | only "cfg" changes and only by appending. On success it returns True and appends exactly one version after the seed (when creating) or after the existing ones: the blob it read, reconciled (`Reconciled`: every old value kept, "lat" filled only when missing, the version stamped). So there are 2 versions in all when creating, one more otherwise, and the latest is stamped and holds "lat". A failure leaves exactly the seeded secret when creating, else nothing. The prompt happens exactly when the blob read lacks "lat" |
| `SecretManager.GetCfgRun` | src/device_modules/secret_manager_caller.py:145-158 | only "cfg" changes, append-only. Success leaves a latest version with the current version. A True result means the latest holds "lat". A dictionary result means nothing was written and no prompt happened, and it is the latest blob. A failure leaves the store unchanged or, on a cold start, holding only the seed |
| `SecretManager.SecretManagerCaller.constructor` | src/device_modules/secret_manager_caller.py:7-16 | a caller over the given project and store contents, with `self.cfg` unset |
| `SecretManager.SecretManagerCaller.CreateSecret` | src/device_modules/secret_manager_caller.py:18-41 | the store becomes `Created(old store, id)` |
| `SecretManager.SecretManagerCaller.AddSecretVersion` | src/device_modules/secret_manager_caller.py:43-74 | the store becomes `Appended(old store, id, payload)` |
| `SecretManager.SecretManagerCaller.AccessSecretVersion` | src/device_modules/secret_manager_caller.py:76-91 | returns what the store holds at that version, or its error |
| `SecretManager.SecretManagerCaller.CfgExists` | src/device_modules/secret_manager_caller.py:93-106 | true iff the store has a secret "cfg" |
| `SecretManager.SecretManagerCaller.CfgVersionUpToDate` | src/device_modules/secret_manager_caller.py:108-113 | returns `VersionUpToDate` of the current store |
| `SecretManager.SecretManagerCaller.CreateOrUpdateCfg` | src/device_modules/secret_manager_caller.py:115-143 | the in-place update of the read blob, then the append, yields the store, result and prompt of `CreateOrUpdateRun` |
| `SecretManager.SecretManagerCaller.GetCfg` | src/device_modules/secret_manager_caller.py:145-158 | the store, result and prompt are those of `GetCfgRun`; `self.cfg` is assigned the result only when no exception escapes |
| `SecretManagerLemmas.ColdStart` | src/device_modules/secret_manager_caller.py:126-153 | with no "cfg", the user is prompted. An accepted latitude leaves exactly `[{"version"}, {"version", "lat"}]` and returns True. A rejected one leaves only the seed and raises ValueError |
| `SecretManagerLemmas.StaleVersion` | src/device_modules/secret_manager_caller.py:131-155 | a stale version gets exactly one appended version, the reconciled blob, and True. The prompt happens iff "lat" is missing. A rejected entry changes nothing |
| `SecretManagerLemmas.UpToDate` | src/device_modules/secret_manager_caller.py:152-158 | a current version means no write and no prompt, and the latest blob is returned unchanged |
| `SecretManagerLemmas.Unreadable` | src/device_modules/secret_manager_caller.py:108-113 | a "cfg" with no version or without "version" raises before any write or prompt |
| `SecretManagerLemmas.SecondCallOnlyReads` | src/device_modules/secret_manager_caller.py:145-158 | after any successful call, the next call only reads back the latest blob |
| `SecretManagerLemmas.RejectedLatitudeIsNeverAskedAgain` | src/device_modules/secret_manager_caller.py:126-157 | after a cold start whose latitude was rejected, every later call returns the seed, which has no "lat", without prompting |
| `SecretManagerLemmas.ConfigNeverDecodes` | src/device_modules/secret_manager_caller.py:126-158 | `get_cfg` preserves "no version of cfg has an open_weather_cfg section"; in such a store, the latest "cfg" after a successful call fails `from_dict` (config_dataclasses.py:13-20) with a KeyError for "open_weather_cfg" |
| `SecretManagerLemmas.ColdStartThenRead` | src/device_modules/secret_manager_caller.py:145-158 | through the class: the first call on an empty store returns True and stores two versions; the second returns the merged dictionary |
| `ConfigDataclasses.Kwargs` | src/configurations/config_dataclasses.py:14-15 | `dict_obj[key]` unpacked with `**` succeeds iff the key is present and holds a mapping; otherwise KeyError or TypeError |
| `ConfigDataclasses.CheckFields` | src/configurations/config_dataclasses.py:23-32 | a dataclass constructor accepts the keywords iff they are exactly its fields; an undeclared keyword is reported before a missing one |
| `ConfigDataclasses.NewOpenWeatherCfg` | src/configurations/config_dataclasses.py:23-27 | `OpenWeatherCfg(**kw)` succeeds iff the keys are exactly lat, long, api_key, and copies the three values |
| `ConfigDataclasses.NewGoogleCalendarCfg` | src/configurations/config_dataclasses.py:30-32 | `GoogleCalendarCfg(**kw)` succeeds iff the keys are exactly calender_id, and copies the value |
| `ConfigDataclasses.FromDict` | src/configurations/config_dataclasses.py:12-20 | succeeds iff the three top-level keys are present and each sub-dictionary has exactly its dataclass's fields; every field of the result, `version` included, is the dictionary's value unchanged |
| `ConfigDataclasses.FromDictToDict` | src/configurations/config_dataclasses.py:6-32 | every `UserCfg` decodes back from its own dictionary |
| `ConfigDataclasses.ToDictFromDict` | src/configurations/config_dataclasses.py:12-20 | a dictionary that decodes equals the result's dictionary on the three keys read |
| `ConfigDataclasses.FromDictIgnoresExtraKeys` | src/configurations/config_dataclasses.py:13-20 | adding or changing a top-level key other than the three read does not change the outcome |
| `ConfigDataclasses.MissingTopLevelKeyFails` | src/configurations/config_dataclasses.py:14-19 | a missing top-level key makes decoding fail, with that key's KeyError when everything else is well formed |
| `ConfigDataclasses.WrongWeatherFieldsFail` | src/configurations/config_dataclasses.py:14-27 | a weather sub-dictionary with missing or extra field names raises the constructor's TypeError |
| `ConfigDataclasses.ExampleDecodes` | src/configurations/config_dataclasses.py:42-48 | the module's example dictionary decodes to exactly its own values |

## Left out

- The Secret Manager client is replaced by the store field. This covers transport, credentials, resource-path strings for the parent and versions (lines 26, 57, 83), replication settings and `print`. Listed names are modelled as `projects/<project>/secrets/<id>`, which is all `_cfg_exists` depends on.
- Service errors other than a missing secret or version are not modelled (permissions, quota, a disabled or destroyed version).
- `create_secret` on an existing id and `add_secret_version` on a missing secret are preconditions, not error paths. `get_cfg` never makes either call.
- Secret ids are assumed to contain no '/', as the service requires. The service's other id rules are not modelled.
- `version_id` is modelled as `Latest` or a version number rather than a free string.
- JSON encoding and decoding, and the UTF-8 conversion, are treated as an identity round trip on the dictionaries `get_cfg` writes. String payloads of `add_secret_version` (stored raw, then parsed by `json.loads` on read) are not modelled, because `get_cfg` never passes one. JSON values are strings, numbers and objects only (no arrays, booleans or null).
- `input()` and `float()`: the prompt is a parameter (see above). Python floats are modelled as exact reals.
- Version numbers count from 1, as on the service. Version states (enabled, disabled, destroyed) are not modelled.
- `SenseMonitorCfg` is declared but unused, so it is not modelled.
- The other device modules (identity, calendar, weather, generative AI) and the command-line entry points are not part of this model. They are calls into remote services with no logic of their own to verify.
- Concurrent writers to the store are not modelled. The code assumes a single writer.
