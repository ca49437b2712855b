# fabric-gce-tools in Dafny

A model of the in-memory bookkeeping of `fabric_gce_tools`, the Fabric helper
that turns the Google Compute Engine instance list (as printed by
`gcloud compute instances list --format=json`) into Fabric roles:

- the two indexes over the fetched instance records, by instance name and by the
  NAT IP of the first access config of the first network interface, rebuilt from
  scratch on every fetch, the first record seen for a key winning;
- the role table: for every tag an instance carries, the NAT IPs of the
  instances carrying it, each once, in the order first seen;
- the cache-freshness test that decides whether `~/.gcetools/instances` is
  reused, and the overwrite of that file after a live listing;
- the merge of the role table into `env.roledefs` (`dict.update`);
- the lookups by name and by IP and the projections of `name` and `zone`.

`wrappers.dfy` holds `Option` and `Result`; `gce_tools.dfy` holds module
`GceTools`. The module-level globals of the Python file (`INSTANCES_CACHE`,
`INSTANCES_NAME_INDEX`, `INSTANCES_IP_INDEX`, plus the cache file on disk)
are the fields of class `GceState`; `env.roledefs` is the field of class
`FabricEnv`. Methods change those fields as the Python code does, with loops
where the code loops, and are proved against reference definitions
(`FirstSeenIndex`, `RolesOf`, `MergeRoles`, `Fetch`, `CacheAfterFetch`) whose
properties are proved as ensures clauses or lemmas.

An instance record is the datatype `Instance(name, zone, natIP, tags)`. The
index builder reads `name` and the NAT IP of every record without any guard (a
missing key raises), so they are fields every record has. `zone` is read only
by the two zone projections; the model makes it a field every record has too
(see "## Left out"). `tags` is read under a guard and is `Option<Tags>`, with
`Tags(items: Option<seq<string>>)`.

The outcomes of the external `gcloud` calls are parameters: `probeOk` is
whether `gcloud version` succeeded, `listing` is the decoded instance list or
`None` when the listing command failed. The clock (`time.time()`) and the
file's creation time (`os.path.getctime`) are `real` parameters and fields.

Where the code behaves differently from what its names or docstring suggest,
the model follows the code:

- The IP index reads the NAT IP of every record, and the role table that of
  every record with tag items, without a guard, so a record without one raises
  rather than being skipped; here every record has one.
- `_check_gcloud` assigns `_gcloud_exists` as a local, so the module flag never
  leaves `None` and `gcloud version` runs before every live listing; the model
  takes a fresh `probeOk` on every fetch, and the "flag is false" branch of
  `_get_data` cannot be reached.
- `update_roles_gce` assigns `_data_loaded` as a local, so the lookups refresh
  on every call, not only on the first.
- `update_roles_gce` ignores its `cache_path` argument; the cache file is always
  `~/.gcetools/instances`.

## Model

| member | source | states |
|---|---|---|
| GceTools.GceState.BuildInstancesIndex | fabric_gce_tools/__init__.py:51-63 | Both indexes are discarded and rebuilt over the last fetched records; afterwards each equals the first-seen index of those records, by name and by NAT IP. |
| GceTools.FirstSeenIndexSpec | fabric_gce_tools/__init__.py:54-63 | An index has a key exactly when some record has that key, and maps it to the first record bearing it. |
| GceTools.FirstSeenIndexSnoc | fabric_gce_tools/__init__.py:57-63 | Adding one more record enters it only when its key is not yet present; an existing entry is never replaced. |
| GceTools.GetInstanceByName | fabric_gce_tools/__init__.py:129-136 | Lookup by name gives the indexed record when the name is a key, and None exactly when it is not. |
| GceTools.GetInstanceByIp | fabric_gce_tools/__init__.py:138-145 | Lookup by IP gives the indexed record when the IP is a key, and None exactly when it is not. |
| GceTools.GetInstanceNameByIp | fabric_gce_tools/__init__.py:147-152 | The name of the record found by IP; None exactly when the lookup by IP finds nothing. |
| GceTools.GetInstanceZoneByName | fabric_gce_tools/__init__.py:154-159 | The zone of the record found by name; None exactly when the lookup by name finds nothing. |
| GceTools.GetInstanceZoneByIp | fabric_gce_tools/__init__.py:161-166 | The zone of the record found by IP; None exactly when the lookup by IP finds nothing. |
| GceTools.InstanceByNameIsFirstNamed | fabric_gce_tools/__init__.py:129-136 | Over the indexes built from the data, lookup by name returns the first record with that name, and None exactly when no record has it. |
| GceTools.InstanceByIpIsFirstWithIp | fabric_gce_tools/__init__.py:138-145 | Over the indexes built from the data, lookup by IP returns the first record exposing that NAT IP, and None exactly when no record exposes it. |
| GceTools.ProjectionsOfFirstRecord | fabric_gce_tools/__init__.py:147-166 | Name-by-IP, zone-by-IP and zone-by-name give the name or zone of the first record with the key, and None when no record has the key. |
| GceTools.GetRoles | fabric_gce_tools/__init__.py:114-127 | The nested loop that creates roles and appends addresses yields exactly the reference role table of the data. |
| GceTools.RolesKeys | fabric_gce_tools/__init__.py:116-121 | A role exists exactly when some record with present `tags` and `items` lists that tag. |
| GceTools.RolesDistinct | fabric_gce_tools/__init__.py:124-125 | No role lists the same address twice. |
| GceTools.RolesSoundAndComplete | fabric_gce_tools/__init__.py:116-125 | Every address in a role is the NAT IP of a record carrying the tag, and every record carrying a tag has its NAT IP in that role. |
| GceTools.RolesInFirstSeenOrder | fabric_gce_tools/__init__.py:118-125 | Addresses in a role appear in the order in which records carrying the tag first expose them. |
| GceTools.RolesIgnoreUntagged | fabric_gce_tools/__init__.py:117 | A record without `tags` or `items`, wherever it stands in the data, leaves the role table unchanged. |
| GceTools.SharedTagScenario | fabric_gce_tools/__init__.py:114-127 | Two records carrying only tag `t` with different addresses give the one role `t` listing both addresses in fetch order. |
| GceTools.FirstOccurrencesDistinct | fabric_gce_tools/__init__.py:124-125 | Keeping only the first occurrence of each address leaves no duplicates. |
| GceTools.FirstOccurrencesOrdered | fabric_gce_tools/__init__.py:124-125 | Kept addresses are in the order of their first occurrence. |
| GceTools.MergeRoles | fabric_gce_tools/__init__.py:191 | The merged registry has the keys of both maps; every role of the new table maps to its new list, and every other registry entry is unchanged. |
| GceTools.FabricEnv.UpdateRoledefs | fabric_gce_tools/__init__.py:191 | `env.roledefs` becomes the merge of its old value with the role table. |
| GceTools.CacheIsFresh | fabric_gce_tools/__init__.py:75-81 | The cache is reused exactly when caching is on, the file exists, and its age is below the expiration. |
| GceTools.CacheExpires | fabric_gce_tools/__init__.py:79-81 | A file at least as old as the expiration is not reused, and a stale file never becomes fresh again as time advances. |
| GceTools.Fetch | fabric_gce_tools/__init__.py:75-101 | A fresh cache gives its records with no call to gcloud; otherwise a failed `gcloud version` probe raises `GcloudMissing`, a failed listing (probe passed) raises `ListingFailed`, and a successful one gives the live listing. |
| GceTools.CacheAfterFetch | fabric_gce_tools/__init__.py:103-108 | With caching on and the cache not fresh, a successful live listing is written to the cache file stamped with the current time; the file is replaced by nothing else, and never when caching is off, the cache was used, or `gcloud version` failed. |
| GceTools.GceState.GetData | fabric_gce_tools/__init__.py:65-112 | Returns the fetch outcome, updates the cache file accordingly, and on success records and indexes the fetched records; on failure nothing changes. |
| GceTools.GceState.UpdateRolesGce | fabric_gce_tools/__init__.py:174-193 | Returns nothing exactly when the fetch succeeds and raises the fetch's own error otherwise; on success the indexes are those of the fetched records and `env.roledefs` is merged with their role table; on failure neither changes. |
| GceTools.GceState.UpdateRolesGceDefaults | fabric_gce_tools/__init__.py:130-131 | The refresh the lookups run, `update_roles_gce()` with caching on and a one-day expiration: succeeds exactly when the fetch does, fails with the fetch's own error, sets the indexes, cache file and roles as the general call with those arguments, and on failure leaves the records and `env.roledefs` unchanged. |
| GceTools.CacheLifecycle | fabric_gce_tools/__init__.py:75-108 | A listing written to the cache is read back unchanged while fresh, even with gcloud unavailable, and a live listing is fetched again once it has expired. |

## Left out

- `target_pool_add_instance` and `target_pool_remove_instance` (fabric_gce_tools/__init__.py:168-172): each only runs one external `gcloud` command and discards its output.
- `_check_gcloud` (fabric_gce_tools/__init__.py:42-49): the external probe is reduced to its outcome, the `probeOk` parameter; its error message is the `GcloudMissing` error value.
- The lookups' own refresh call (fabric_gce_tools/__init__.py:130-131, 139-140) is `GceState.UpdateRolesGceDefaults`; the lookup functions model only the read of the indexes that follows it, and do not call it themselves.
- JSON decoding of the listing and of the cache file: the model starts from decoded records, and the cache file holds them as such.
- File-system work: the cache directory creation, the file path, and open/read/write errors are not modelled.
- GceState.GetData: a rewritten cache file is given `now` as its creation time (the POSIX status-change time); a platform that keeps the original creation time on overwrite is not modelled.
- CacheIsFresh: timestamps are exact reals; floating-point rounding of `getctime` and `time.time()` is not modelled.
- Record fields other than `name`, `zone`, the NAT IP and `tags.items` are not modelled; a record missing `name` or the NAT IP raises `KeyError` in the index builder and cannot be built here.
- Instance: records without `zone` are not modelled; the source indexes and groups them, returns them from the lookups by name and by IP, and raises `KeyError` only in the zone projections (fabric_gce_tools/__init__.py:157, 164).
- `if instance:` is modelled as "the lookup found something": a record is a non-empty dict and therefore truthy.
- Records are values: the source's indexes share the dict objects of `INSTANCES_CACHE`, and that aliasing is not modelled.
- Concurrency and the rest of Fabric's `env` are not modelled.
