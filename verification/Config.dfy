/** Reading the host ConfigMap: pkg/config/config.go and the resolution order of getPlatformConfig. */
module Config {
  import opened Text
  import opened Platforms
  import opened Validation
  import InstanceTags

  type Data = map<string, string>

  function Field(data: Data, key: string): string {
    if key in data then data[key] else ""
  }

  // ---- lists of platforms ------------------------------------------------------------------

  /** One part of the list is in order: a valid platform, or nothing if it comes last. */
  predicate PartOk(parts: seq<string>, i: nat)
    requires i < |parts|
  {
    if TrimSpace(parts[i]) == "" then i == |parts| - 1 else ValidPlatformFormat(TrimSpace(parts[i]))
  }

  /** The platforms named by the first `n` parts. */
  function Named(parts: seq<string>, n: nat): seq<string>
    requires n <= |parts|
  {
    if n == 0 then []
    else Named(parts, n - 1) + if TrimSpace(parts[n - 1]) == "" then [] else [TrimSpace(parts[n - 1])]
  }

  /** The platforms a list names: none if the list is malformed. */
  function PlatformList(text: string): Option<seq<string>> {
    if text == "" then Some([])
    else
      var parts := Split(text, ',');
      if forall i :: 0 <= i < |parts| ==> PartOk(parts, i) then Some(Named(parts, |parts|)) else None
  }

  /** ParsePlatformList. */
  method ParsePlatformList(text: string) returns (r: Option<seq<string>>)
    ensures r == PlatformList(text)
  {
    hide TrimSpace, ValidPlatformFormat, Split;
    if text == "" {
      return Some([]);
    }
    var parts := Split(text, ',');
    var result: seq<string> := [];
    for i := 0 to |parts|
      invariant forall j :: 0 <= j < i ==> PartOk(parts, j)
      invariant result == Named(parts, i)
    {
      var platform := TrimSpace(parts[i]);
      if platform == "" {
        if i != |parts| - 1 {
          assert !PartOk(parts, i);
          return None;
        }
      } else {
        if !ValidPlatformFormat(platform) {
          assert !PartOk(parts, i);
          return None;
        }
        result := result + [platform];
      }
    }
    return Some(result);
  }

  /** Only valid platforms are listed. */
  lemma {:induction false} NamedAreValid(parts: seq<string>, n: nat, p: string)
    requires n <= |parts| && p in Named(parts, n) && forall i :: 0 <= i < |parts| ==> PartOk(parts, i)
    ensures ValidPlatformFormat(p)
  {
    hide TrimSpace, ValidPlatformFormat;
    if p in Named(parts, n - 1) {
      NamedAreValid(parts, n - 1, p);
    } else {
      assert PartOk(parts, n - 1);
    }
  }

  lemma ListedAreValid(text: string, p: string)
    requires PlatformList(text).Some? && p in PlatformList(text).value
    ensures ValidPlatformFormat(p)
  {
    NamedAreValid(Split(text, ','), |Split(text, ',')|, p);
  }

  // ---- fields ----------------------------------------------------------------------------------

  const MAX_STATIC_CONCURRENCY: int := 8
  const MAX_POOL_HOST_AGE: int := 1440
  const DEFAULT_ALLOCATION_TIMEOUT: int := 600
  const DEFAULT_CHECK_INTERVAL: int := 60

  /** validateNonZeroPositiveNumber. */
  function Positive(value: string): (r: Option<int>)
    ensures r.Some? ==> r.value >= 1 && ParseInt64(value) == r
  {
    var n := ParseInt64(value);
    if n.Some? && n.value >= 1 then n else None
  }

  /** validateNonZeroPositiveNumberWithMax. */
  function PositiveUpTo(value: string, max: int): (r: Option<int>)
    ensures r.Some? ==> 1 <= r.value <= max
  {
    var n := Positive(value);
    if n.Some? && n.value <= max then n else None
  }

  function PositiveOr(value: string, default: int): Option<int> {
    if value == "" then Some(default) else Positive(value)
  }

  /** validateIBMHostSecret accepts. */
  predicate IbmSecretOk(platform: string, secret: string) {
    || (Contains(platform, "s390x") && Contains(secret, "s390x"))
    || (Contains(platform, "ppc64le") && Contains(secret, "ppc64le"))
  }

  /** parseRequiredSSHSecretField. */
  function SshSecret(text: string, platform: string, provider: string): Option<string> {
    var secret := TrimSpace(text);
    if secret == "" then None
    else if provider == "aws" then Some(secret)
    else if provider == "ibmz" || provider == "ibmp" then (if IbmSecretOk(platform, secret) then Some(secret) else None)
    else None
  }

  function Prefix(platform: string): string {
    "dynamic." + PlatformLabel(platform) + "."
  }

  /** parseDynamicOptionalInstanceTagField. */
  predicate TagOk(data: Data, platform: string) {
    var tag := Field(data, Prefix(platform) + "instance-tag");
    tag == "" || InstanceTags.ValidTag(PlatformLabel(platform), tag)
  }

  /** The tag of a platform falls back to the default one. */
  function TagFor(data: Data, platform: string): string {
    var tag := Field(data, Prefix(platform) + "instance-tag");
    if tag == "" then Field(data, "instance-tag") else tag
  }

  /** What a listing is confined to: AWS region and instance type, IBM Z endpoint and network, Power endpoint and workspace. */
  function ScopeFor(data: Data, platform: string, provider: string): seq<string> {
    var prefix := Prefix(platform);
    if provider == "aws" then [Field(data, prefix + "region"), Field(data, prefix + "instance-type")]
    else if provider == "ibmz" then [Field(data, prefix + "url"), Field(data, prefix + "vpc")]
    else [Field(data, prefix + "url"), Field(data, prefix + "crn")]
  }

  // ---- additional tags ------------------------------------------------------------------------------

  function WithTag(tags: map<string, string>, text: string): map<string, string> {
    var parts := Split(text, '=');
    if |parts| >= 2 then tags[parts[0] := parts[1]] else tags
  }

  function TagsIn(texts: seq<string>, n: nat): map<string, string>
    requires n <= |texts|
  {
    if n == 0 then map[] else WithTag(TagsIn(texts, n - 1), texts[n - 1])
  }

  function AdditionalTags(data: Data): map<string, string> {
    if "additional-instance-tags" !in data then map[]
    else
      var texts := Split(data["additional-instance-tags"], ',');
      TagsIn(texts, |texts|)
  }

  method ParseAdditionalTags(data: Data) returns (tags: map<string, string>)
    ensures tags == AdditionalTags(data)
  {
    tags := map[];
    if "additional-instance-tags" in data {
      var texts := Split(data["additional-instance-tags"], ',');
      for i := 0 to |texts|
        invariant tags == TagsIn(texts, i)
      {
        var parts := Split(texts[i], '=');
        if |parts| >= 2 {
          tags := tags[parts[0] := parts[1]];
        }
      }
    }
  }

  // ---- dynamic platforms ---------------------------------------------------------------------------

  /** ParseDynamicPlatformConfig and buildDynamicResolver. */
  function DynamicPlatform(data: Data, platform: string): (r: Option<PlatformConfig>)
    ensures r.Some? ==> r.value.DynamicResolver?
  {
    var prefix := Prefix(platform);
    var provider := Field(data, prefix + "type");
    var max := Positive(Field(data, prefix + "max-instances"));
    var timeout := PositiveOr(Field(data, prefix + "allocation-timeout"), DEFAULT_ALLOCATION_TIMEOUT);
    var interval := PositiveOr(Field(data, prefix + "check-interval"), DEFAULT_CHECK_INTERVAL);
    var secret := SshSecret(Field(data, prefix + "ssh-secret"), platform, provider);
    if provider == "" || max.None? || !TagOk(data, platform) || timeout.None? || interval.None? || secret.None? then None
    else Some(DynamicResolver(provider, secret.value, platform, max.value, TagFor(data, platform), ScopeFor(data, platform, provider),
                              timeout.value, interval.value, Field(data, prefix + "sudo-commands"), AdditionalTags(data)))
  }

  /** ParseDynamicPoolPlatformConfig and buildDynamicHostPool; the age is given in minutes. */
  function PoolPlatform(data: Data, platform: string): (r: Option<PlatformConfig>)
    ensures r.Some? ==> r.value.DynamicHostPool?
  {
    var prefix := Prefix(platform);
    var provider := Field(data, prefix + "type");
    var max := Positive(Field(data, prefix + "max-instances"));
    var concurrency := PositiveUpTo(Field(data, prefix + "concurrency"), MAX_STATIC_CONCURRENCY);
    var age := PositiveUpTo(Field(data, prefix + "max-age"), MAX_POOL_HOST_AGE);
    var secret := SshSecret(Field(data, prefix + "ssh-secret"), platform, provider);
    if provider == "" || max.None? || concurrency.None? || age.None? || !TagOk(data, platform) || secret.None? then None
    else Some(DynamicHostPool(provider, secret.value, platform, max.value, 60 * age.value, concurrency.value,
                              TagFor(data, platform), ScopeFor(data, platform, provider), AdditionalTags(data)))
  }

  // ---- static hosts -----------------------------------------------------------------------------------

  /** The host a key is about: "host.<name>.<field>". */
  function HostNameIn(key: string): Option<string> {
    if !HasPrefix(key, "host.") then None
    else
      var rest := key[5..];
      var dot := LastIndex(rest, '.');
      if dot == -1 then None else Some(rest[..dot])
  }

  function HostNames(data: Data): set<string> {
    set key | key in data && HostNameIn(key).Some? :: HostNameIn(key).value
  }

  /** ParseStaticHostConfig. `isIp` is the address format check. */
  function StaticHost(data: Data, isIp: string -> bool, name: string): (r: Option<Host>)
    ensures r.Some? ==> r.value.name == name && 0 <= r.value.concurrency <= MAX_STATIC_CONCURRENCY
  {
    var prefix := "host." + name + ".";
    var address := TrimSpace(Field(data, prefix + "address"));
    var platform := TrimSpace(Field(data, prefix + "platform"));
    var secret := TrimSpace(Field(data, prefix + "secret"));
    var ibm := Contains(platform, "s390x") || Contains(platform, "ppc64le");
    var count := Field(data, prefix + "concurrency");
    var concurrency := if count == "" then Some(0) else PositiveUpTo(count, MAX_STATIC_CONCURRENCY);
    if address == "" || !isIp(address) then None
    else if platform != "" && !ValidPlatformFormat(platform) then None
    else if secret != "" && ibm && !IbmSecretOk(platform, secret) then None
    else if concurrency.None? then None
    else Some(Host(name, address, TrimSpace(Field(data, prefix + "user")), platform, secret, concurrency.value))
  }

  predicate HostMatches(data: Data, isIp: string -> bool, platform: string, name: string) {
    StaticHost(data, isIp, name).Some? && StaticHost(data, isIp, name).value.platform == platform
  }

  /** The hosts of a platform: none at all if any host of the ConfigMap is malformed. */
  function StaticPlatform(data: Data, isIp: string -> bool, platform: string): (r: Option<PlatformConfig>)
    ensures r.Some? ==> r.value.HostPool?
  {
    if exists name :: name in HostNames(data) && StaticHost(data, isIp, name).None? then None
    else Some(HostPool(
      map name | name in HostNames(data) && HostMatches(data, isIp, platform, name) :: StaticHost(data, isIp, name).value,
      platform))
  }

  /** The hosts among `names`. */
  ghost function HostsAmong(data: Data, isIp: string -> bool, platform: string, names: set<string>): map<string, Host> {
    map name | name in names && HostMatches(data, isIp, platform, name) :: StaticHost(data, isIp, name).value
  }

  /** The first loop over the ConfigMap, in any order. */
  method CollectHostNames(data: Data) returns (names: set<string>)
    ensures names == HostNames(data)
  {
    names := {};
    var todo := data.Keys;
    while todo != {}
      invariant todo <= data.Keys
      invariant names == set key | key in data.Keys - todo && HostNameIn(key).Some? :: HostNameIn(key).value
      decreases |todo|
    {
      var key :| key in todo;
      todo := todo - {key};
      if HostNameIn(key).Some? {
        names := names + {HostNameIn(key).value};
      }
    }
  }

  lemma AmongOneMore(data: Data, isIp: string -> bool, platform: string, names: set<string>, name: string)
    ensures var hosts := HostsAmong(data, isIp, platform, names);
      HostsAmong(data, isIp, platform, names + {name}) ==
        if HostMatches(data, isIp, platform, name) then hosts[name := StaticHost(data, isIp, name).value] else hosts
  {
    hide StaticHost;
  }

  /** The second loop: whatever the order of the hosts, the pool is the same and so is whether there is an error. */
  method ParseStaticPlatform(data: Data, isIp: string -> bool, platform: string) returns (r: Option<PlatformConfig>)
    ensures r == StaticPlatform(data, isIp, platform)
  {
    hide StaticHost, HostNameIn;
    var names := CollectHostNames(data);
    hide HostNames;
    var hosts: map<string, Host> := map[];
    var todo := names;
    while todo != {}
      invariant todo <= names
      invariant forall name :: name in names - todo ==> StaticHost(data, isIp, name).Some?
      invariant hosts == HostsAmong(data, isIp, platform, names - todo)
      decreases |todo|
    {
      var name :| name in todo;
      AmongOneMore(data, isIp, platform, names - todo, name);
      assert names - (todo - {name}) == names - todo + {name};
      todo := todo - {name};
      var host := StaticHost(data, isIp, name);
      if host.None? {
        return None;
      }
      if host.value.platform == platform {
        hosts := hosts[name := host.value];
      }
    }
    assert names - todo == names;
    return Some(HostPool(hosts, platform));
  }

  // ---- resolution ----------------------------------------------------------------------------------------

  predicate Listed(data: Data, key: string, platform: string) {
    var list := PlatformList(Field(data, key));
    list.Some? && platform in list.value
  }

  /** The strategy for a platform: local, then dynamic, then pool, then static. */
  function Resolve(data: Data, isIp: string -> bool, platform: string): Option<PlatformConfig> {
    if PlatformList(Field(data, "local-platforms")).None? then None
    else if Listed(data, "local-platforms", platform) then Some(Local)
    else if PlatformList(Field(data, "dynamic-platforms")).None? then None
    else if Listed(data, "dynamic-platforms", platform) then DynamicPlatform(data, platform)
    else if PlatformList(Field(data, "dynamic-pool-platforms")).None? then None
    else if Listed(data, "dynamic-pool-platforms", platform) then PoolPlatform(data, platform)
    else StaticPlatform(data, isIp, platform)
  }

  /** Everything a resolved entry promises to the strategies. */
  predicate EntryOk(platform: string, pc: PlatformConfig) {
    match pc
    case Local => true
    case DynamicResolver(_, _, p, max, _, _, timeout, interval, _, _) => p == platform && max >= 1 && timeout >= 1 && interval >= 1
    case DynamicHostPool(_, _, p, max, age, concurrency, _, _, _) =>
      p == platform && max >= 1 && 60 <= age <= 86400 && 1 <= concurrency <= 8
    case HostPool(hosts, p) => p == platform && forall h :: h in hosts ==> HostOk(platform, h, hosts[h])
  }

  predicate HostOk(platform: string, name: string, host: Host) {
    host.name == name && host.platform == platform && 0 <= host.concurrency <= 8
  }

  lemma ResolvedIsOk(data: Data, isIp: string -> bool, platform: string)
    requires Resolve(data, isIp, platform).Some?
    ensures EntryOk(platform, Resolve(data, isIp, platform).value)
  {
    hide PlatformList, StaticHost, HostNames, SshSecret, AdditionalTags, TagOk, Prefix;
    if StaticPlatform(data, isIp, platform).Some? {
      StaticIsOk(data, isIp, platform);
    }
    hide StaticPlatform;
  }

  lemma StaticIsOk(data: Data, isIp: string -> bool, platform: string)
    requires StaticPlatform(data, isIp, platform).Some?
    ensures EntryOk(platform, StaticPlatform(data, isIp, platform).value)
  {
    hide StaticHost, HostNames;
  }
}
