/**
 * The in-memory bookkeeping of fabric_gce_tools: the name and NAT-IP indexes
 * over the fetched instance list, the tag-to-address role table, the
 * cache-freshness test, the merge of the role table into the task runner's
 * role registry (`env.roledefs`), and the lookups over the indexes.
 *
 * The external `gcloud` process and the cache file's bytes are not modelled:
 * their outcomes are parameters (`probeOk`, `listing`, the decoded records).
 */
module GceTools {
  import opened Wrappers

  // ---------------------------------------------------------------------
  // Instance records

  /** The `tags` object of an instance record; its `items` list may be missing. */
  datatype Tags = Tags(items: Option<seq<string>>)

  /** One record of `gcloud compute instances list`. The code reads `name`, `zone` and
      `networkInterfaces[0].accessConfigs[0].natIP` without guards, so every record
      here has them; `tags` is read under a guard and may be missing (`None`, which
      also stands for a `tags` entry that is null). */
  datatype Instance = Instance(name: string, zone: string, natIP: string, tags: Option<Tags>)

  /** The tags a record contributes to the role table: `tags.items` when `tags` is
      present and truthy and holds `items`; no tags otherwise. */
  function TagItems(i: Instance): seq<string>
  {
    if i.tags.Some? && i.tags.value.items.Some? then i.tags.value.items.value else []
  }

  // ---------------------------------------------------------------------
  // First occurrences in a sequence

  /** Position of the first occurrence of `x` in `s`. */
  function FirstIndex(s: seq<string>, x: string): (k: nat)
    requires x in s
    ensures k < |s| && s[k] == x && x !in s[..k]
  {
    if s[0] == x then 0
    else
      var k' := FirstIndex(s[1..], x);
      assert s[..k' + 1] == [s[0]] + s[1..][..k'];
      k' + 1
  }

  /** The elements of `s` that occur there for the first time, in order: `s[k]` is kept
      exactly when it does not occur in `s[..k]`. */
  function FirstOccurrences(s: seq<string>): seq<string>
  {
    if s == [] then []
    else
      var init, x := s[..|s| - 1], s[|s| - 1];
      FirstOccurrences(init) + (if x in init then [] else [x])
  }

  lemma {:induction false} FirstOccurrencesMembers(s: seq<string>)
    ensures forall x :: x in FirstOccurrences(s) <==> x in s
  {
    if s != [] {
      var init := s[..|s| - 1];
      FirstOccurrencesMembers(init);
      assert s == init + [s[|s| - 1]];
    }
  }

  lemma {:induction false} FirstOccurrencesDistinct(s: seq<string>)
    ensures forall i, j :: 0 <= i < j < |FirstOccurrences(s)| ==>
      FirstOccurrences(s)[i] != FirstOccurrences(s)[j]
  {
    if s != [] {
      var init := s[..|s| - 1];
      FirstOccurrencesDistinct(init);
      FirstOccurrencesMembers(init);
    }
  }

  lemma {:induction false} FirstIndexOfPrefix(s: seq<string>, x: string, y: string)
    requires y in s
    ensures FirstIndex(s + [x], y) == FirstIndex(s, y)
  {
    if s[0] != y {
      assert (s + [x])[1..] == s[1..] + [x];
      FirstIndexOfPrefix(s[1..], x, y);
    }
  }

  lemma {:induction false} FirstOccurrencesOrdered(s: seq<string>)
    ensures forall i, j :: 0 <= i < j < |FirstOccurrences(s)| ==>
      var r := FirstOccurrences(s);
      r[i] in s && r[j] in s && FirstIndex(s, r[i]) < FirstIndex(s, r[j])
  {
    FirstOccurrencesMembers(s);
    if s != [] {
      var init, x := s[..|s| - 1], s[|s| - 1];
      assert s == init + [x];
      FirstOccurrencesOrdered(init);
      FirstOccurrencesMembers(init);
      var r, r0 := FirstOccurrences(s), FirstOccurrences(init);
      assert r == r0 + (if x in init then [] else [x]);
      forall i, j | 0 <= i < j < |r|
        ensures r[i] in s && r[j] in s && FirstIndex(s, r[i]) < FirstIndex(s, r[j])
      {
        assert r[i] == r0[i] && r0[i] in r0;
        FirstIndexOfPrefix(init, x, r[i]);
        if j < |r0| {
          FirstIndexOfPrefix(init, x, r[j]);
        } else {
          assert r[j] == x && x !in init;
          assert FirstIndex(s, x) == |init|;
        }
      }
    }
  }

  // ---------------------------------------------------------------------
  // The name and NAT-IP indexes

  /** Which field of a record an index is keyed by. */
  datatype IndexKey = ByName | ByNatIP

  function KeyOf(i: Instance, key: IndexKey): string
  {
    match key
    case ByName => i.name
    case ByNatIP => i.natIP
  }

  /** Reference definition of an index over `s`: every record is entered under its key,
      and a record overrides every later record with the same key. */
  function FirstSeenIndex(s: seq<Instance>, key: IndexKey): map<string, Instance>
  {
    if s == [] then map[] else FirstSeenIndex(s[1..], key)[KeyOf(s[0], key) := s[0]]
  }

  /** `j` is the position of the first record of `s` whose key is `k`. */
  ghost predicate IsFirstWithKey(s: seq<Instance>, key: IndexKey, k: string, j: int)
  {
    0 <= j < |s| && KeyOf(s[j], key) == k &&
    forall i :: 0 <= i < j ==> KeyOf(s[i], key) != k
  }

  /** The index has one key per distinct key in `s` and no other, and maps it to the
      first record bearing it. */
  lemma {:induction false} FirstSeenIndexSpec(s: seq<Instance>, key: IndexKey)
    ensures forall k :: k in FirstSeenIndex(s, key) <==>
      exists j :: 0 <= j < |s| && KeyOf(s[j], key) == k
    ensures forall k, j :: IsFirstWithKey(s, key, k, j) ==>
      k in FirstSeenIndex(s, key) && FirstSeenIndex(s, key)[k] == s[j]
  {
    if s != [] {
      var tail := s[1..];
      FirstSeenIndexSpec(tail, key);
      var m := FirstSeenIndex(s, key);
      assert m == FirstSeenIndex(tail, key)[KeyOf(s[0], key) := s[0]];
      forall k
        ensures k in m <==> exists j :: 0 <= j < |s| && KeyOf(s[j], key) == k
      {
        if k in m && k != KeyOf(s[0], key) {
          var j' :| 0 <= j' < |tail| && KeyOf(tail[j'], key) == k;
          assert KeyOf(s[j' + 1], key) == k;
        }
        if exists j :: 0 <= j < |s| && KeyOf(s[j], key) == k {
          var j :| 0 <= j < |s| && KeyOf(s[j], key) == k;
          if j > 0 {
            assert KeyOf(tail[j - 1], key) == k;
          }
        }
      }
      forall k, j | IsFirstWithKey(s, key, k, j)
        ensures k in m && m[k] == s[j]
      {
        if j > 0 {
          assert KeyOf(s[0], key) != k;
          forall i | 0 <= i < j - 1
            ensures KeyOf(tail[i], key) != k
          {
            assert tail[i] == s[i + 1];
          }
          assert IsFirstWithKey(tail, key, k, j - 1);
        }
      }
    }
  }

  /** Appending a record to the data enters it only when its key is new: the step
      the indexing loop takes. */
  lemma {:induction false} FirstSeenIndexSnoc(s: seq<Instance>, x: Instance, key: IndexKey)
    ensures FirstSeenIndex(s + [x], key) ==
      if KeyOf(x, key) in FirstSeenIndex(s, key) then FirstSeenIndex(s, key)
      else FirstSeenIndex(s, key)[KeyOf(x, key) := x]
  {
    if s == [] {
      assert [x][1..] == [];
    } else {
      assert (s + [x])[1..] == s[1..] + [x];
      FirstSeenIndexSnoc(s[1..], x, key);
    }
  }

  // ---------------------------------------------------------------------
  // Lookups over the indexes

  /** `get_instance_by_name`, read from the name index. */
  function GetInstanceByName(nameIndex: map<string, Instance>, name: string): (r: Option<Instance>)
    ensures r.None? <==> name !in nameIndex
    ensures r.Some? ==> r.value == nameIndex[name]
  {
    if name in nameIndex then Some(nameIndex[name]) else None
  }

  /** `get_instance_by_ip`, read from the NAT-IP index. */
  function GetInstanceByIp(ipIndex: map<string, Instance>, ip: string): (r: Option<Instance>)
    ensures r.None? <==> ip !in ipIndex
    ensures r.Some? ==> r.value == ipIndex[ip]
  {
    if ip in ipIndex then Some(ipIndex[ip]) else None
  }

  /** `get_instance_name_by_ip`: the name of the record found by IP; absence passes through. */
  function GetInstanceNameByIp(ipIndex: map<string, Instance>, ip: string): (r: Option<string>)
    ensures r.None? <==> GetInstanceByIp(ipIndex, ip).None?
    ensures r.Some? ==> r.value == GetInstanceByIp(ipIndex, ip).value.name
  {
    match GetInstanceByIp(ipIndex, ip)
    case Some(instance) => Some(instance.name)
    case None => None
  }

  /** `get_instance_zone_by_name`: the zone of the record found by name; absence passes through. */
  function GetInstanceZoneByName(nameIndex: map<string, Instance>, name: string): (r: Option<string>)
    ensures r.None? <==> GetInstanceByName(nameIndex, name).None?
    ensures r.Some? ==> r.value == GetInstanceByName(nameIndex, name).value.zone
  {
    match GetInstanceByName(nameIndex, name)
    case Some(instance) => Some(instance.zone)
    case None => None
  }

  /** `get_instance_zone_by_ip`: the zone of the record found by IP; absence passes through. */
  function GetInstanceZoneByIp(ipIndex: map<string, Instance>, ip: string): (r: Option<string>)
    ensures r.None? <==> GetInstanceByIp(ipIndex, ip).None?
    ensures r.Some? ==> r.value == GetInstanceByIp(ipIndex, ip).value.zone
  {
    match GetInstanceByIp(ipIndex, ip)
    case Some(instance) => Some(instance.zone)
    case None => None
  }

  /** On the indexes built from `data`, lookup by name finds the first record with that
      name, and nothing exactly when no record has it. */
  lemma InstanceByNameIsFirstNamed(data: seq<Instance>, name: string)
    ensures GetInstanceByName(FirstSeenIndex(data, ByName), name).None? <==>
      forall j :: 0 <= j < |data| ==> data[j].name != name
    ensures forall j :: IsFirstWithKey(data, ByName, name, j) ==>
      GetInstanceByName(FirstSeenIndex(data, ByName), name) == Some(data[j])
  {
    FirstSeenIndexSpec(data, ByName);
  }

  /** On the indexes built from `data`, lookup by IP finds the first record exposing that
      NAT IP, and nothing exactly when no record exposes it. */
  lemma InstanceByIpIsFirstWithIp(data: seq<Instance>, ip: string)
    ensures GetInstanceByIp(FirstSeenIndex(data, ByNatIP), ip).None? <==>
      forall j :: 0 <= j < |data| ==> data[j].natIP != ip
    ensures forall j :: IsFirstWithKey(data, ByNatIP, ip, j) ==>
      GetInstanceByIp(FirstSeenIndex(data, ByNatIP), ip) == Some(data[j])
  {
    FirstSeenIndexSpec(data, ByNatIP);
  }

  /** On the indexes built from `data`, the projections give the name and zone of the
      first record with the looked-up key, and nothing when no record has the key. */
  lemma ProjectionsOfFirstRecord(data: seq<Instance>, name: string, ip: string)
    ensures forall j :: IsFirstWithKey(data, ByNatIP, ip, j) ==>
      GetInstanceNameByIp(FirstSeenIndex(data, ByNatIP), ip) == Some(data[j].name) &&
      GetInstanceZoneByIp(FirstSeenIndex(data, ByNatIP), ip) == Some(data[j].zone)
    ensures forall j :: IsFirstWithKey(data, ByName, name, j) ==>
      GetInstanceZoneByName(FirstSeenIndex(data, ByName), name) == Some(data[j].zone)
    ensures (forall j :: 0 <= j < |data| ==> data[j].natIP != ip) ==>
      GetInstanceNameByIp(FirstSeenIndex(data, ByNatIP), ip).None? &&
      GetInstanceZoneByIp(FirstSeenIndex(data, ByNatIP), ip).None?
    ensures (forall j :: 0 <= j < |data| ==> data[j].name != name) ==>
      GetInstanceZoneByName(FirstSeenIndex(data, ByName), name).None?
  {
    InstanceByNameIsFirstNamed(data, name);
    InstanceByIpIsFirstWithIp(data, ip);
  }

  // ---------------------------------------------------------------------
  // The role table

  /** The NAT IPs of the records carrying tag `t`, in record order (with repeats). */
  function AddressesTagged(data: seq<Instance>, t: string): seq<string>
  {
    if data == [] then []
    else
      var last := data[|data| - 1];
      AddressesTagged(data[..|data| - 1], t) + (if t in TagItems(last) then [last.natIP] else [])
  }

  /** Every tag carried by some record of `data`. */
  function RoleNames(data: seq<Instance>): set<string>
  {
    if data == [] then {}
    else
      var last := data[|data| - 1];
      RoleNames(data[..|data| - 1]) + (set t | t in TagItems(last))
  }

  /** Reference definition of the role table: one role per tag carried by some record,
      listing the NAT IPs of the records carrying it, each once, in the order first seen. */
  function RolesOf(data: seq<Instance>): map<string, seq<string>>
  {
    map t | t in RoleNames(data) :: FirstOccurrences(AddressesTagged(data, t))
  }

  lemma {:induction false} RoleNamesMembers(data: seq<Instance>)
    ensures forall t :: t in RoleNames(data) <==>
      exists j :: 0 <= j < |data| && t in TagItems(data[j])
  {
    if data != [] {
      var init := data[..|data| - 1];
      RoleNamesMembers(init);
      forall t
        ensures t in RoleNames(data) <==> exists j :: 0 <= j < |data| && t in TagItems(data[j])
      {
        if exists j :: 0 <= j < |data| && t in TagItems(data[j]) {
          var j :| 0 <= j < |data| && t in TagItems(data[j]);
          if j < |init| {
            assert data[j] == init[j];
          }
        }
        if t in RoleNames(init) {
          var j :| 0 <= j < |init| && t in TagItems(init[j]);
          assert data[j] == init[j];
        }
      }
    }
  }

  lemma {:induction false} AddressesTaggedMembers(data: seq<Instance>, t: string)
    ensures forall a :: a in AddressesTagged(data, t) <==>
      exists j :: 0 <= j < |data| && t in TagItems(data[j]) && data[j].natIP == a
  {
    if data != [] {
      var init := data[..|data| - 1];
      AddressesTaggedMembers(init, t);
      forall a
        ensures a in AddressesTagged(data, t) <==>
          exists j :: 0 <= j < |data| && t in TagItems(data[j]) && data[j].natIP == a
      {
        if exists j :: 0 <= j < |data| && t in TagItems(data[j]) && data[j].natIP == a {
          var j :| 0 <= j < |data| && t in TagItems(data[j]) && data[j].natIP == a;
          if j < |init| {
            assert data[j] == init[j];
          }
        }
        if a in AddressesTagged(init, t) {
          var j :| 0 <= j < |init| && t in TagItems(init[j]) && init[j].natIP == a;
          assert data[j] == init[j];
        }
      }
    }
  }

  lemma {:induction false} UnnamedRoleHasNoAddresses(data: seq<Instance>, t: string)
    ensures t !in RoleNames(data) ==> AddressesTagged(data, t) == []
  {
    if data != [] {
      UnnamedRoleHasNoAddresses(data[..|data| - 1], t);
    }
  }

  /** A role exists exactly when some record carries its tag; records without
      `tags`/`items` give no role. */
  lemma RolesKeys(data: seq<Instance>)
    ensures forall t :: t in RolesOf(data) <==>
      exists j :: 0 <= j < |data| && t in TagItems(data[j])
  {
    RoleNamesMembers(data);
  }

  /** No role lists an address twice. */
  lemma RolesDistinct(data: seq<Instance>)
    ensures forall t, i, j :: t in RolesOf(data) && 0 <= i < j < |RolesOf(data)[t]| ==>
      RolesOf(data)[t][i] != RolesOf(data)[t][j]
  {
    forall t | t in RolesOf(data) {
      FirstOccurrencesDistinct(AddressesTagged(data, t));
    }
  }

  /** Every address listed for a role is the NAT IP of a record carrying that tag, and
      every record carrying a tag has its NAT IP listed under that role. */
  lemma RolesSoundAndComplete(data: seq<Instance>)
    ensures forall t, a :: t in RolesOf(data) && a in RolesOf(data)[t] ==>
      exists j :: 0 <= j < |data| && t in TagItems(data[j]) && data[j].natIP == a
    ensures forall j, t :: 0 <= j < |data| && t in TagItems(data[j]) ==>
      t in RolesOf(data) && data[j].natIP in RolesOf(data)[t]
  {
    RoleNamesMembers(data);
    forall t, a | t in RolesOf(data) && a in RolesOf(data)[t]
      ensures exists j :: 0 <= j < |data| && t in TagItems(data[j]) && data[j].natIP == a
    {
      AddressesTaggedMembers(data, t);
      FirstOccurrencesMembers(AddressesTagged(data, t));
    }
    forall j, t | 0 <= j < |data| && t in TagItems(data[j])
      ensures t in RolesOf(data) && data[j].natIP in RolesOf(data)[t]
    {
      AddressesTaggedMembers(data, t);
      FirstOccurrencesMembers(AddressesTagged(data, t));
    }
  }

  /** Within a role, addresses appear in the order in which records carrying the tag
      first expose them. */
  lemma RolesInFirstSeenOrder(data: seq<Instance>)
    ensures forall t, i, j :: t in RolesOf(data) && 0 <= i < j < |RolesOf(data)[t]| ==>
      var list, seen := RolesOf(data)[t], AddressesTagged(data, t);
      list[i] in seen && list[j] in seen && FirstIndex(seen, list[i]) < FirstIndex(seen, list[j])
  {
    forall t | t in RolesOf(data) {
      FirstOccurrencesOrdered(AddressesTagged(data, t));
    }
  }

  lemma {:induction false} UntaggedRecordIgnored(pre: seq<Instance>, x: Instance, post: seq<Instance>, t: string)
    requires TagItems(x) == []
    ensures AddressesTagged(pre + [x] + post, t) == AddressesTagged(pre + post, t)
    ensures RoleNames(pre + [x] + post) == RoleNames(pre + post)
  {
    if post == [] {
      assert pre + [x] + post == pre + [x];
      assert (pre + [x])[..|pre|] == pre;
      assert pre + post == pre;
    } else {
      var post', y := post[..|post| - 1], post[|post| - 1];
      UntaggedRecordIgnored(pre, x, post', t);
      assert (pre + [x] + post)[..|pre + [x] + post| - 1] == pre + [x] + post';
      assert (pre + post)[..|pre + post| - 1] == pre + post';
    }
  }

  /** A record without tags leaves the role table as it is, wherever it stands. */
  lemma RolesIgnoreUntagged(pre: seq<Instance>, x: Instance, post: seq<Instance>)
    requires TagItems(x) == []
    ensures RolesOf(pre + [x] + post) == RolesOf(pre + post)
  {
    forall t
      ensures AddressesTagged(pre + [x] + post, t) == AddressesTagged(pre + post, t)
    {
      UntaggedRecordIgnored(pre, x, post, t);
    }
    UntaggedRecordIgnored(pre, x, post, "");
  }

  /** The role table while the loop of `GetRoles` is inside the record at the end of
      `prefix`, whose address is `address`, having handled the tags `done`. */
  ghost function PartialRoles(prefix: seq<Instance>, address: string, done: seq<string>): map<string, seq<string>>
  {
    var names := RoleNames(prefix) + (set u | u in done);
    map t | t in names ::
      FirstOccurrences(AddressesTagged(prefix, t) + (if t in done then [address] else []))
  }

  lemma PartialRolesEmpty(prefix: seq<Instance>, address: string)
    ensures PartialRoles(prefix, address, []) == RolesOf(prefix)
  {
    forall t | t in RoleNames(prefix)
      ensures AddressesTagged(prefix, t) + [] == AddressesTagged(prefix, t)
    {
    }
  }

  lemma RolesOfSnoc(prefix: seq<Instance>, x: Instance)
    ensures RolesOf(prefix + [x]) == PartialRoles(prefix, x.natIP, TagItems(x))
  {
    assert (prefix + [x])[..|prefix|] == prefix;
  }

  lemma PartialRolesAt(prefix: seq<Instance>, address: string, done: seq<string>, u: string)
    ensures u in PartialRoles(prefix, address, done) <==> u in RoleNames(prefix) || u in done
    ensures u in PartialRoles(prefix, address, done) ==>
      PartialRoles(prefix, address, done)[u] ==
        FirstOccurrences(AddressesTagged(prefix, u) + (if u in done then [address] else []))
  {
  }

  lemma PartialRolesOtherTag(prefix: seq<Instance>, address: string, done: seq<string>, t: string, u: string)
    requires u != t
    ensures u in PartialRoles(prefix, address, done + [t]) <==> u in PartialRoles(prefix, address, done)
    ensures u in PartialRoles(prefix, address, done) ==>
      PartialRoles(prefix, address, done + [t])[u] == PartialRoles(prefix, address, done)[u]
  {
    assert u in done + [t] <==> u in done;
    PartialRolesAt(prefix, address, done, u);
    PartialRolesAt(prefix, address, done + [t], u);
  }

  lemma PartialRolesAtTag(prefix: seq<Instance>, address: string, done: seq<string>, t: string)
    ensures t in PartialRoles(prefix, address, done + [t])
    ensures
      var r := PartialRoles(prefix, address, done);
      var list := if t in r then r[t] else [];
      PartialRoles(prefix, address, done + [t])[t] == if address in list then list else list + [address]
  {
    var r := PartialRoles(prefix, address, done);
    var seen := AddressesTagged(prefix, t);
    PartialRolesAt(prefix, address, done, t);
    PartialRolesAt(prefix, address, done + [t], t);
    assert t in done + [t];
    var grown := FirstOccurrences(seen + [address]);
    assert grown == FirstOccurrences(seen) + (if address in seen then [] else [address]) by {
      assert (seen + [address])[..|seen|] == seen;
    }
    if t in done {
      FirstOccurrencesMembers(seen + [address]);
      assert r[t] == grown && address in grown;
    } else if t in RoleNames(prefix) {
      FirstOccurrencesMembers(seen);
      assert seen + [] == seen;
      assert r[t] == FirstOccurrences(seen);
    } else {
      UnnamedRoleHasNoAddresses(prefix, t);
      assert t !in r && seen == [];
      assert grown == [address];
    }
  }

  lemma PartialRolesStep(prefix: seq<Instance>, address: string, done: seq<string>, t: string)
    ensures PartialRoles(prefix, address, done + [t]) == AddAddress(PartialRoles(prefix, address, done), t, address)
  {
    var r := PartialRoles(prefix, address, done);
    var r' := PartialRoles(prefix, address, done + [t]);
    var target := AddAddress(r, t, address);
    forall u
      ensures u in r' <==> u in target
      ensures u in r' ==> r'[u] == target[u]
    {
      if u == t {
        PartialRolesAtTag(prefix, address, done, t);
      } else {
        PartialRolesOtherTag(prefix, address, done, t, u);
      }
    }
    assert r' == target;
  }

  /** The step of the inner loop of `_get_roles`: the role is created empty if new, and
      `address` is appended to it unless already listed. */
  function AddAddress(roles: map<string, seq<string>>, role: string, address: string): map<string, seq<string>>
  {
    var list := if role in roles then roles[role] else [];
    if address in list then roles[role := list] else roles[role := list + [address]]
  }

  /** The role table after `AddAddress` under each of `tags` in turn. */
  function AddAddressUnder(roles: map<string, seq<string>>, tags: seq<string>, address: string): map<string, seq<string>>
  {
    if tags == [] then roles
    else AddAddress(AddAddressUnder(roles, tags[..|tags| - 1], address), tags[|tags| - 1], address)
  }

  lemma AddAddressUnderPrefix(roles: map<string, seq<string>>, tags: seq<string>, m: nat, address: string)
    requires m < |tags|
    ensures AddAddressUnder(roles, tags[..m + 1], address) ==
      AddAddress(AddAddressUnder(roles, tags[..m], address), tags[m], address)
  {
    assert tags[..m + 1][..m] == tags[..m];
  }

  lemma {:induction false} PartialRolesFold(prefix: seq<Instance>, address: string, done: seq<string>)
    ensures AddAddressUnder(RolesOf(prefix), done, address) == PartialRoles(prefix, address, done)
  {
    if done == [] {
      PartialRolesEmpty(prefix, address);
    } else {
      var init, t := done[..|done| - 1], done[|done| - 1];
      PartialRolesFold(prefix, address, init);
      PartialRolesStep(prefix, address, init, t);
      assert init + [t] == done;
    }
  }

  /** Handling record `data[n]` takes the role table of the records before it to that of
      the records up to it. */
  lemma RolesOfPrefixStep(data: seq<Instance>, n: nat)
    requires n < |data|
    ensures RolesOf(data[..n + 1]) == AddAddressUnder(RolesOf(data[..n]), TagItems(data[n]), data[n].natIP)
  {
    assert data[..n + 1] == data[..n] + [data[n]];
    RolesOfSnoc(data[..n], data[n]);
    PartialRolesFold(data[..n], data[n].natIP, TagItems(data[n]));
  }

  /** `_get_roles`: groups the NAT IPs of the records by every tag each record carries. */
  method GetRoles(data: seq<Instance>) returns (roles: map<string, seq<string>>)
    ensures roles == RolesOf(data)
  {
    roles := map[];
    assert RolesOf(data[..0]) == map[];
    for n := 0 to |data|
      invariant roles == RolesOf(data[..n])
    {
      var i := data[n];
      RolesOfPrefixStep(data, n);
      if i.tags.Some? && i.tags.value.items.Some? {
        var items := i.tags.value.items.value;
        for m := 0 to |items|
          invariant roles == AddAddressUnder(RolesOf(data[..n]), items[..m], i.natIP)
        {
          var role := items[m];
          AddAddressUnderPrefix(RolesOf(data[..n]), items, m, i.natIP);
          if role !in roles {
            roles := roles[role := []];
          }
          var address := i.natIP;
          if address !in roles[role] {
            roles := roles[role := roles[role] + [address]];
          }
        }
        assert items[..|items|] == items;
      }
    }
    assert data[..|data|] == data;
  }

  /** Two records carrying just the tag `t`, with different addresses, give the one role
      `t` listing both addresses in fetch order. */
  lemma SharedTagScenario(first: Instance, second: Instance, t: string)
    requires TagItems(first) == [t] && TagItems(second) == [t]
    requires first.natIP != second.natIP
    ensures RolesOf([first, second]) == map[t := [first.natIP, second.natIP]]
  {
    SharedTagAddresses(first, second, t);
    SharedTagNames(first, second, t);
    var roles := RolesOf([first, second]);
    assert roles.Keys == {t};
    assert roles[t] == [first.natIP, second.natIP];
  }

  lemma SharedTagNames(first: Instance, second: Instance, t: string)
    requires TagItems(first) == [t] && TagItems(second) == [t]
    ensures RoleNames([first, second]) == {t}
  {
    var data := [first, second];
    RoleNamesMembers(data);
    forall u
      ensures u in RoleNames(data) <==> u == t
    {
      assert u in RoleNames(data) <==> u in TagItems(data[0]) || u in TagItems(data[1]);
    }
  }

  lemma SharedTagAddresses(first: Instance, second: Instance, t: string)
    requires TagItems(first) == [t] && TagItems(second) == [t]
    requires first.natIP != second.natIP
    ensures FirstOccurrences(AddressesTagged([first, second], t)) == [first.natIP, second.natIP]
  {
    var seen := [first.natIP, second.natIP];
    assert AddressesTagged([first, second], t) == seen by {
      assert [first, second][..1] == [first] && [first][..0] == [];
      assert AddressesTagged([first], t) == [first.natIP];
    }
    assert seen[..1] == [first.natIP] && [first.natIP][..0] == [];
    assert FirstOccurrences([first.natIP]) == [first.natIP];
  }

  // ---------------------------------------------------------------------
  // The role registry

  /** `dict.update`: roles replace same-named registry entries; other entries stay. */
  function MergeRoles(registry: map<string, seq<string>>, roles: map<string, seq<string>>): (merged: map<string, seq<string>>)
    ensures merged.Keys == registry.Keys + roles.Keys
    ensures forall r :: r in roles ==> merged[r] == roles[r]
    ensures forall r :: r in registry && r !in roles ==> merged[r] == registry[r]
  {
    registry + roles
  }

  /** The part of the task runner's environment this code writes: `env.roledefs`. */
  class FabricEnv {
    var roledefs: map<string, seq<string>>

    constructor (roledefs: map<string, seq<string>>)
      ensures this.roledefs == roledefs
    {
      this.roledefs := roledefs;
    }

    /** `env.roledefs.update(roles)`. */
    method UpdateRoledefs(roles: map<string, seq<string>>)
      modifies this
      ensures roledefs == MergeRoles(old(roledefs), roles)
    {
      roledefs := MergeRoles(roledefs, roles);
    }
  }

  // ---------------------------------------------------------------------
  // The cache slot and the fetch

  /** Default `cache_expiration` of `update_roles_gce`: one day, in seconds. */
  const DefaultCacheExpiration: real := 86400.0

  /** The cache file `~/.gcetools/instances`: its creation time and the decoded records. */
  datatype CacheFile = CacheFile(ctime: real, contents: seq<Instance>)

  /** Why a live fetch raises: `gcloud version` failed, or the listing itself failed. */
  datatype GcloudError = GcloudMissing | ListingFailed

  /** The freshness test of `_get_data`: the cache is reused only when caching is on,
      the file exists, and it is younger than the expiration. */
  function CacheIsFresh(useCache: bool, fileExists: bool, ctime: real, cacheExpiration: real, now: real): (reusable: bool)
    ensures reusable <==> useCache && fileExists && now - ctime < cacheExpiration
  {
    useCache && fileExists && ctime + cacheExpiration > now
  }

  /** A cache file older than the expiration is never reused; a fresh one stays fresh
      at every earlier moment. */
  lemma CacheExpires(useCache: bool, fileExists: bool, ctime: real, cacheExpiration: real, now: real, later: real)
    requires now <= later
    ensures ctime + cacheExpiration <= now ==> !CacheIsFresh(useCache, fileExists, ctime, cacheExpiration, now)
    ensures !CacheIsFresh(useCache, fileExists, ctime, cacheExpiration, now) ==>
      !CacheIsFresh(useCache, fileExists, ctime, cacheExpiration, later)
  {
  }

  /** Whether `_get_data` reads the records from the cache file `file`. */
  function ServedFromCache(file: Option<CacheFile>, useCache: bool, cacheExpiration: real, now: real): bool
  {
    file.Some? && CacheIsFresh(useCache, true, file.value.ctime, cacheExpiration, now)
  }

  /** What `_get_data` returns: the cached records when the cache is fresh; otherwise the
      live listing, unless `gcloud version` (`probeOk`) or the listing (`listing`) fails. */
  function Fetch(file: Option<CacheFile>, useCache: bool, cacheExpiration: real, now: real,
                 probeOk: bool, listing: Option<seq<Instance>>): (r: Result<seq<Instance>, GcloudError>)
    ensures ServedFromCache(file, useCache, cacheExpiration, now) ==> r == Success(file.value.contents)
    ensures r.Failure? <==> !ServedFromCache(file, useCache, cacheExpiration, now) && (!probeOk || listing.None?)
    ensures r.Success? && !ServedFromCache(file, useCache, cacheExpiration, now) ==> r == Success(listing.value)
    ensures r == Failure(GcloudMissing) <==> !ServedFromCache(file, useCache, cacheExpiration, now) && !probeOk
    ensures r == Failure(ListingFailed) <==>
      !ServedFromCache(file, useCache, cacheExpiration, now) && probeOk && listing.None?
  {
    if ServedFromCache(file, useCache, cacheExpiration, now) then Success(file.value.contents)
    else if !probeOk then Failure(GcloudMissing)
    else if listing.None? then Failure(ListingFailed)
    else Success(listing.value)
  }

  /** The cache file after `_get_data`: overwritten with a live listing when caching is on,
      untouched otherwise. */
  function CacheAfterFetch(file: Option<CacheFile>, useCache: bool, cacheExpiration: real, now: real,
                           probeOk: bool, listing: Option<seq<Instance>>): (after: Option<CacheFile>)
    ensures !useCache ==> after == file
    ensures after != file ==> probeOk && listing.Some? && after == Some(CacheFile(now, listing.value))
    ensures ServedFromCache(file, useCache, cacheExpiration, now) ==> after == file
    ensures useCache && !ServedFromCache(file, useCache, cacheExpiration, now) && probeOk && listing.Some? ==>
      after == Some(CacheFile(now, listing.value))
  {
    if !ServedFromCache(file, useCache, cacheExpiration, now) && useCache && probeOk && listing.Some?
    then Some(CacheFile(now, listing.value))
    else file
  }

  // ---------------------------------------------------------------------
  // The module state

  /** The module-level state of fabric_gce_tools: the last fetched records
      (`INSTANCES_CACHE`), the two indexes over them and the cache file on disk. */
  class GceState {
    var instancesCache: seq<Instance>
    var nameIndex: map<string, Instance>
    var ipIndex: map<string, Instance>
    var cacheFile: Option<CacheFile>

    /** The indexes are those of the last fetched records. */
    ghost predicate Indexed()
      reads this
    {
      nameIndex == FirstSeenIndex(instancesCache, ByName) &&
      ipIndex == FirstSeenIndex(instancesCache, ByNatIP)
    }

    constructor (disk: Option<CacheFile>)
      ensures Indexed()
      ensures instancesCache == [] && nameIndex == map[] && ipIndex == map[] && cacheFile == disk
    {
      instancesCache := [];
      nameIndex := map[];
      ipIndex := map[];
      cacheFile := disk;
    }

    /** `_build_instances_index`: rebuilds both indexes from scratch over the last fetched
        records, the first record seen for a key winning. */
    method BuildInstancesIndex()
      modifies this`nameIndex, this`ipIndex
      ensures nameIndex == FirstSeenIndex(instancesCache, ByName)
      ensures ipIndex == FirstSeenIndex(instancesCache, ByNatIP)
    {
      nameIndex := map[];
      ipIndex := map[];
      for n := 0 to |instancesCache|
        invariant nameIndex == FirstSeenIndex(instancesCache[..n], ByName)
        invariant ipIndex == FirstSeenIndex(instancesCache[..n], ByNatIP)
      {
        var instance := instancesCache[n];
        FirstSeenIndexSnoc(instancesCache[..n], instance, ByName);
        FirstSeenIndexSnoc(instancesCache[..n], instance, ByNatIP);
        assert instancesCache[..n + 1] == instancesCache[..n] + [instance];
        if instance.name !in nameIndex {
          nameIndex := nameIndex[instance.name := instance];
        }
        var ip := instance.natIP;
        if ip !in ipIndex {
          ipIndex := ipIndex[ip := instance];
        }
      }
      assert instancesCache[..|instancesCache|] == instancesCache;
    }

    /** `_get_data`: reads the records from a fresh cache file or fetches them live
        (writing them to the cache file when caching is on), then records and indexes them.
        On failure nothing changes. */
    method GetData(useCache: bool, cacheExpiration: real, now: real,
                   probeOk: bool, listing: Option<seq<Instance>>)
      returns (result: Result<seq<Instance>, GcloudError>)
      requires Indexed()
      modifies this
      ensures Indexed()
      ensures result == Fetch(old(cacheFile), useCache, cacheExpiration, now, probeOk, listing)
      ensures cacheFile == CacheAfterFetch(old(cacheFile), useCache, cacheExpiration, now, probeOk, listing)
      ensures result.Success? ==> instancesCache == result.value
      ensures result.Failure? ==> instancesCache == old(instancesCache)
    {
      var fileExists := cacheFile.Some?;
      var ctime := if fileExists then cacheFile.value.ctime else 0.0;
      var data: seq<Instance>;
      if CacheIsFresh(useCache, fileExists, ctime, cacheExpiration, now) {
        data := cacheFile.value.contents;
      } else {
        if !probeOk {
          return Failure(GcloudMissing);
        }
        if listing.None? {
          return Failure(ListingFailed);
        }
        data := listing.value;
        if useCache {
          cacheFile := Some(CacheFile(now, data));
        }
      }
      instancesCache := data;
      BuildInstancesIndex();
      result := Success(data);
    }

    /** `update_roles_gce`: fetches the records, rebuilds the indexes, and merges the role
        table of the records into `env.roledefs`. It returns nothing (`Success(())`) or
        raises the fetch's error; on failure nothing changes. */
    method UpdateRolesGce(env: FabricEnv, useCache: bool, cacheExpiration: real, now: real,
                          probeOk: bool, listing: Option<seq<Instance>>)
      returns (result: Result<(), GcloudError>)
      requires Indexed()
      modifies this, env
      ensures Indexed()
      ensures var fetched := Fetch(old(cacheFile), useCache, cacheExpiration, now, probeOk, listing);
        (result.Success? <==> fetched.Success?) &&
        (result.Failure? ==> result.error == fetched.error) &&
        (fetched.Success? ==>
           instancesCache == fetched.value && env.roledefs == MergeRoles(old(env.roledefs), RolesOf(fetched.value)))
      ensures cacheFile == CacheAfterFetch(old(cacheFile), useCache, cacheExpiration, now, probeOk, listing)
      ensures result.Failure? ==> instancesCache == old(instancesCache) && env.roledefs == old(env.roledefs)
    {
      var data := GetData(useCache, cacheExpiration, now, probeOk, listing);
      if data.Failure? {
        return Failure(data.error);
      }
      var roles := GetRoles(data.value);
      env.UpdateRoledefs(roles);
      result := Success(());
    }

    /** `update_roles_gce()` with its default arguments, as the lookups call it: caching on,
        a cache expiration of one day. */
    method UpdateRolesGceDefaults(env: FabricEnv, now: real, probeOk: bool, listing: Option<seq<Instance>>)
      returns (result: Result<(), GcloudError>)
      requires Indexed()
      modifies this, env
      ensures Indexed()
      ensures var fetched := Fetch(old(cacheFile), true, DefaultCacheExpiration, now, probeOk, listing);
        (result.Success? <==> fetched.Success?) &&
        (result.Failure? ==> result.error == fetched.error) &&
        (fetched.Success? ==>
           instancesCache == fetched.value && env.roledefs == MergeRoles(old(env.roledefs), RolesOf(fetched.value)))
      ensures cacheFile == CacheAfterFetch(old(cacheFile), true, DefaultCacheExpiration, now, probeOk, listing)
      ensures result.Failure? ==> instancesCache == old(instancesCache) && env.roledefs == old(env.roledefs)
    {
      result := UpdateRolesGce(env, true, DefaultCacheExpiration, now, probeOk, listing);
    }
  }

  /** The cache round trip: a live listing written to the cache is read back unchanged
      while the file is fresh, with no call to `gcloud`; once expired, a live listing is
      fetched again. */
  method CacheLifecycle(live: seq<Instance>, refreshed: seq<Instance>, cacheExpiration: real,
                        written: real, reread: real, expired: real)
    returns (first: Result<seq<Instance>, GcloudError>, second: Result<seq<Instance>, GcloudError>,
             third: Result<seq<Instance>, GcloudError>)
    requires reread < written + cacheExpiration <= expired
    ensures first == Success(live)
    ensures second == Success(live)
    ensures third == Success(refreshed)
  {
    var state := new GceState(None);
    first := state.GetData(true, cacheExpiration, written, true, Some(live));
    second := state.GetData(true, cacheExpiration, reread, false, None);
    third := state.GetData(true, cacheExpiration, expired, true, Some(refreshed));
  }
}
