/** Settings written into the ConfigMap are read back: each from its own key, with its default where it is left out. */
module ConfigRoundTrip {
  import opened Text
  import opened Platforms
  import opened Validation
  import opened Config

  // ---- lists of platforms ---------------------------------------------------------------------

  /** A list names exactly its non-empty trimmed parts, in order. */
  lemma {:induction false} NamedIff(parts: seq<string>, n: nat, p: string)
    requires n <= |parts|
    ensures p in Named(parts, n) <==> p != "" && exists i :: 0 <= i < n && TrimSpace(parts[i]) == p
  {
    hide TrimSpace;
    if n > 0 {
      NamedIff(parts, n - 1, p);
    }
  }

  predicate PlatformChar(c: char) {
    Lower(c) || Digit(c) || c == '-' || c == '/' || c == '_'
  }

  predicate PlatformText(s: string) {
    s != "" && forall i :: 0 <= i < |s| ==> PlatformChar(s[i])
  }

  lemma ValidIsText(p: string)
    requires ValidPlatformFormat(p)
    ensures PlatformText(p)
  {
    var parts := Split(p, '/');
    JoinSplit(p, '/');
    hide Split, Join;
    if p == "linux/x86_64" {
      ExceptionIsText();
    } else if p != "local" && p != "localhost" {
      JoinOfTwo(parts);
      assert p == parts[0] + ['/'] + parts[1];
    }
  }

  lemma ExceptionIsText()
    ensures PlatformText("linux/x86_64")
  {
  }

  lemma JoinOfTwo(parts: seq<string>)
    requires |parts| == 2
    ensures Join(parts, '/') == parts[0] + ['/'] + parts[1]
  {
    assert parts[1..] == [parts[1]];
  }

  lemma TextIsTrimmed(p: string)
    requires PlatformText(p)
    ensures TrimSpace(p) == p && ',' !in p
  {
    assert PlatformChar(p[0]) && PlatformChar(p[|p| - 1]);
  }

  lemma {:induction false} NamedAll(ps: seq<string>, n: nat, parts: seq<string>)
    requires n <= |ps| && (forall i :: 0 <= i < |ps| ==> PlatformText(ps[i])) && ps <= parts
    ensures Named(parts, n) == ps[..n]
  {
    hide TrimSpace;
    if n > 0 {
      NamedAll(ps, n - 1, parts);
      TextIsTrimmed(ps[n - 1]);
      assert parts[n - 1] == ps[n - 1];
      assert ps[..n] == ps[..n - 1] + [ps[n - 1]];
    }
  }

  /** A list of valid platforms, with or without a comma at its end, is read as these platforms. */
  lemma PlatformListRoundTrip(ps: seq<string>)
    requires ps != [] && forall i :: 0 <= i < |ps| ==> ValidPlatformFormat(ps[i])
    ensures PlatformList(Join(ps, ',')) == Some(ps) && PlatformList(Join(ps + [""], ',')) == Some(ps)
  {
    hide ValidPlatformFormat, Split, Join, TrimSpace;
    forall i | 0 <= i < |ps| ensures PlatformText(ps[i]) && TrimSpace(ps[i]) == ps[i] && ',' !in ps[i] {
      ValidIsText(ps[i]);
      TextIsTrimmed(ps[i]);
    }
    ListRead(ps, ps);
    ListRead(ps, ps + [""]);
  }

  lemma JoinIsText(parts: seq<string>)
    requires parts != [] && parts[0] != ""
    ensures Join(parts, ',') != ""
  {
    assert |parts| > 1 ==> |Join(parts, ',')| >= |parts[0]|;
  }

  lemma ListRead(ps: seq<string>, parts: seq<string>)
    requires ps != [] && (forall i :: 0 <= i < |ps| ==> ValidPlatformFormat(ps[i]) && PlatformText(ps[i]) && TrimSpace(ps[i]) == ps[i] && ',' !in ps[i])
    requires parts == ps || parts == ps + [""]
    ensures PlatformList(Join(parts, ',')) == Some(ps)
  {
    hide ValidPlatformFormat, Split, Join, TrimSpace, Named;
    SplitJoin(parts, ',');
    assert parts[0] == ps[0];
    JoinIsText(parts);
    PartsOk(ps, parts);
    NamedParts(ps, parts);
  }

  lemma PartsOk(ps: seq<string>, parts: seq<string>)
    requires forall i :: 0 <= i < |ps| ==> ValidPlatformFormat(ps[i]) && TrimSpace(ps[i]) == ps[i] && PlatformText(ps[i])
    requires parts == ps || parts == ps + [""]
    ensures forall i :: 0 <= i < |parts| ==> PartOk(parts, i)
  {
    hide ValidPlatformFormat, TrimSpace;
    EmptyIsTrimmed();
    forall i | 0 <= i < |parts| ensures PartOk(parts, i) {
      assert i < |ps| ==> parts[i] == ps[i];
    }
  }

  lemma EmptyIsTrimmed()
    ensures TrimSpace("") == ""
  {
  }

  lemma NamedParts(ps: seq<string>, parts: seq<string>)
    requires forall i :: 0 <= i < |ps| ==> PlatformText(ps[i])
    requires parts == ps || parts == ps + [""]
    ensures Named(parts, |parts|) == ps
  {
    hide TrimSpace;
    EmptyIsTrimmed();
    NamedAll(ps, |ps|, parts);
    assert ps[..|ps|] == ps;
    if parts == ps + [""] {
      assert Named(parts, |parts|) == Named(parts, |ps|) + [];
    }
  }

  // ---- numbers -----------------------------------------------------------------------------------

  lemma PositiveRoundTrip(n: int)
    requires 1 <= n <= MAX_INT64
    ensures Positive(Itoa(n)) == Some(n) && Itoa(n) != "" && forall max :: n <= max ==> PositiveUpTo(Itoa(n), max) == Some(n)
  {
    ParseItoa(n);
    hide ParseInt64;
  }

  /** A number is accepted exactly if it is one in the range. */
  lemma PositiveUpToIff(text: string, max: int, n: int)
    ensures PositiveUpTo(text, max) == Some(n) <==> ParseInt64(text) == Some(n) && 1 <= n <= max
  {
    hide ParseInt64;
  }

  // ---- cloud platforms -----------------------------------------------------------------------------

  /** The secret is accepted for this platform and provider. */
  predicate SecretOk(secret: string, platform: string, provider: string) {
    && secret != "" && TrimSpace(secret) == secret
    && (provider == "aws" || ((provider == "ibmz" || provider == "ibmp") && IbmSecretOk(platform, secret)))
  }

  /** What the ConfigMap says of a cloud platform. */
  predicate Says(data: Data, p: string, field: string, value: string) {
    Field(data, Prefix(p) + field) == value
  }

  /** The text of a setting that has a default: nothing, or the number. */
  predicate SaysOr(data: Data, p: string, field: string, n: int, default: int) {
    Says(data, p, field, Itoa(n)) || (n == default && Says(data, p, field, ""))
  }

  lemma OptionalRoundTrip(data: Data, p: string, field: string, n: int, default: int)
    requires SaysOr(data, p, field, n, default) && 1 <= n <= MAX_INT64
    ensures PositiveOr(Field(data, Prefix(p) + field), default) == Some(n)
  {
    PositiveRoundTrip(n);
    hide ParseInt64, Itoa;
  }

  /** The tag is that of the platform, or the default one. */
  predicate SaysTag(data: Data, p: string, tag: string) {
    || (tag != "" && Says(data, p, "instance-tag", tag) && InstanceTags.ValidTag(PlatformLabel(p), tag))
    || (Says(data, p, "instance-tag", "") && Field(data, "instance-tag") == tag)
  }

  lemma SecretRoundTrip(secret: string, p: string, provider: string)
    requires SecretOk(secret, p, provider)
    ensures SshSecret(secret, p, provider) == Some(secret)
  {
    hide TrimSpace, Contains;
  }

  /** Region and instance type on AWS, endpoint and network or workspace on IBM. */
  predicate SaysScope(data: Data, p: string, provider: string, scope: seq<string>) {
    |scope| == 2 &&
    if provider == "aws" then Says(data, p, "region", scope[0]) && Says(data, p, "instance-type", scope[1])
    else if provider == "ibmz" then Says(data, p, "url", scope[0]) && Says(data, p, "vpc", scope[1])
    else Says(data, p, "url", scope[0]) && Says(data, p, "crn", scope[1])
  }

  lemma ScopeRoundTrip(data: Data, p: string, provider: string, scope: seq<string>)
    requires SaysScope(data, p, provider, scope)
    ensures ScopeFor(data, p, provider) == scope
  {
    hide Prefix;
  }

  /** The settings of a per-task platform, written down, are read back. */
  lemma DynamicRoundTrip(data: Data, d: PlatformConfig)
    requires d.DynamicResolver? && 1 <= d.maxInstances <= MAX_INT64 && 1 <= d.timeout <= MAX_INT64 && 1 <= d.checkInterval <= MAX_INT64
    requires SecretOk(d.sshSecret, d.platform, d.provider)
    requires Says(data, d.platform, "type", d.provider) && Says(data, d.platform, "max-instances", Itoa(d.maxInstances))
    requires SaysOr(data, d.platform, "allocation-timeout", d.timeout, 600) && SaysOr(data, d.platform, "check-interval", d.checkInterval, 60)
    requires Says(data, d.platform, "ssh-secret", d.sshSecret) && Says(data, d.platform, "sudo-commands", d.sudoCommands)
    requires SaysTag(data, d.platform, d.instanceTag)
    requires SaysScope(data, d.platform, d.provider, d.scope) && d.tags == AdditionalTags(data)
    ensures DynamicPlatform(data, d.platform) == Some(d)
  {
    PositiveRoundTrip(d.maxInstances);
    OptionalRoundTrip(data, d.platform, "allocation-timeout", d.timeout, 600);
    OptionalRoundTrip(data, d.platform, "check-interval", d.checkInterval, 60);
    SecretRoundTrip(d.sshSecret, d.platform, d.provider);
    ScopeRoundTrip(data, d.platform, d.provider, d.scope);
    hide Itoa, ParseInt64, Positive, PositiveOr, SshSecret, AdditionalTags, ScopeFor, InstanceTags.ValidTag, PlatformLabel, Prefix, TrimSpace, IbmSecretOk;
  }

  /** The settings of an auto-scaling pool, its age in minutes, are read back. */
  lemma PoolRoundTrip(data: Data, p: PlatformConfig, minutes: int)
    requires p.DynamicHostPool? && 1 <= p.maxInstances <= MAX_INT64 && 1 <= p.concurrency <= 8
    requires 1 <= minutes <= 1440 && p.maxAge == 60 * minutes && SecretOk(p.sshSecret, p.platform, p.provider)
    requires Says(data, p.platform, "type", p.provider) && Says(data, p.platform, "max-instances", Itoa(p.maxInstances))
    requires Says(data, p.platform, "concurrency", Itoa(p.concurrency)) && Says(data, p.platform, "max-age", Itoa(minutes))
    requires Says(data, p.platform, "ssh-secret", p.sshSecret) && SaysTag(data, p.platform, p.instanceTag)
    requires SaysScope(data, p.platform, p.provider, p.scope) && p.tags == AdditionalTags(data)
    ensures PoolPlatform(data, p.platform) == Some(p)
  {
    PositiveRoundTrip(p.maxInstances);
    PositiveRoundTrip(p.concurrency);
    PositiveRoundTrip(minutes);
    SecretRoundTrip(p.sshSecret, p.platform, p.provider);
    ScopeRoundTrip(data, p.platform, p.provider, p.scope);
    hide Itoa, ParseInt64, Positive, PositiveUpTo, SshSecret, AdditionalTags, ScopeFor, InstanceTags.ValidTag, PlatformLabel, Prefix, TrimSpace, IbmSecretOk;
  }

  /** What must be there: a type, a limit, a secret, a tag in order, and for a pool its concurrency and age in range. */
  lemma CloudRequired(data: Data, p: string)
    ensures DynamicPlatform(data, p).Some? || PoolPlatform(data, p).Some? ==>
      var secret := TrimSpace(Field(data, Prefix(p) + "ssh-secret")); var provider := Field(data, Prefix(p) + "type");
      && SecretAccepted(secret, p, provider) && TagOk(data, p)
      && exists n :: ParseInt64(Field(data, Prefix(p) + "max-instances")) == Some(n) && n >= 1
    ensures PoolPlatform(data, p).Some? ==>
      && (exists n :: ParseInt64(Field(data, Prefix(p) + "concurrency")) == Some(n) && 1 <= n <= 8)
      && (exists n :: ParseInt64(Field(data, Prefix(p) + "max-age")) == Some(n) && 1 <= n <= 1440)
  {
    hide ParseInt64, TrimSpace, Prefix, TagOk, AdditionalTags, ScopeFor, IbmSecretOk;
  }

  predicate SecretAccepted(secret: string, platform: string, provider: string) {
    secret != "" && (provider == "aws" || ((provider == "ibmz" || provider == "ibmp") && IbmSecretOk(platform, secret)))
  }

  // ---- static hosts ------------------------------------------------------------------------------------

  predicate SaysHost(data: Data, name: string, field: string, value: string) {
    Field(data, "host." + name + "." + field) == value
  }

  /** A host, written down, is read back; without a concurrency it takes no tasks. */
  lemma HostRoundTrip(data: Data, isIp: string -> bool, h: Host)
    requires h.address != "" && isIp(h.address) && 0 <= h.concurrency <= 8
    requires (h.platform == "" || ValidPlatformFormat(h.platform)) && TrimSpace(h.platform) == h.platform
    requires TrimSpace(h.address) == h.address && TrimSpace(h.user) == h.user && TrimSpace(h.secret) == h.secret
    requires h.secret == "" || IbmSecretOk(h.platform, h.secret) || !(Contains(h.platform, "s390x") || Contains(h.platform, "ppc64le"))
    requires SaysHost(data, h.name, "address", h.address) && SaysHost(data, h.name, "user", h.user)
    requires SaysHost(data, h.name, "platform", h.platform) && SaysHost(data, h.name, "secret", h.secret)
    requires SaysHost(data, h.name, "concurrency", if h.concurrency == 0 then "" else Itoa(h.concurrency))
    ensures StaticHost(data, isIp, h.name) == Some(h)
  {
    if h.concurrency > 0 {
      PositiveRoundTrip(h.concurrency);
    }
    hide Itoa, ParseInt64, PositiveUpTo, TrimSpace, Contains, ValidPlatformFormat, IbmSecretOk;
    var prefix := "host." + h.name + ".";
    assert forall field :: prefix + field == "host." + h.name + "." + field;
  }

  // ---- additional tags ------------------------------------------------------------------------------------

  /** The text gives the tag `k`. */
  predicate Defines(text: string, k: string) {
    |Split(text, '=')| >= 2 && Split(text, '=')[0] == k
  }

  /** The last text that gives a tag decides its value. */
  lemma {:induction false} LastTagCounts(texts: seq<string>, n: nat, i: nat, k: string)
    requires i < n <= |texts| && Defines(texts[i], k) && forall j :: i < j < n ==> !Defines(texts[j], k)
    ensures k in TagsIn(texts, n) && TagsIn(texts, n)[k] == Split(texts[i], '=')[1]
  {
    hide Split;
    if i < n - 1 {
      LastTagCounts(texts, n - 1, i, k);
      assert !Defines(texts[n - 1], k);
    }
  }

  lemma {:induction false} UndefinedTag(texts: seq<string>, n: nat, k: string)
    requires n <= |texts| && forall j :: 0 <= j < n ==> !Defines(texts[j], k)
    ensures k !in TagsIn(texts, n)
  {
    hide Split;
    if n > 0 {
      UndefinedTag(texts, n - 1, k);
      assert !Defines(texts[n - 1], k);
    }
  }

  /** The tags of the ConfigMap are the comma-separated texts of one key, and none if it is left out. */
  lemma TagOfConfigMap(data: Data, i: nat, k: string)
    ensures "additional-instance-tags" !in data ==> AdditionalTags(data) == map[]
    ensures "additional-instance-tags" in data ==>
      var texts := Split(data["additional-instance-tags"], ',');
      i < |texts| && Defines(texts[i], k) && (forall j :: i < j < |texts| ==> !Defines(texts[j], k)) ==>
        k in AdditionalTags(data) && AdditionalTags(data)[k] == Split(texts[i], '=')[1]
  {
    hide Split, Defines, TagsIn;
    if "additional-instance-tags" in data {
      var texts := Split(data["additional-instance-tags"], ',');
      if i < |texts| && Defines(texts[i], k) && (forall j :: i < j < |texts| ==> !Defines(texts[j], k)) {
        LastTagCounts(texts, |texts|, i, k);
        DefinesTwo(texts[i], k);
      }
    }
  }

  lemma DefinesTwo(text: string, k: string)
    requires Defines(text, k)
    ensures |Split(text, '=')| >= 2
  {
  }

  // ---- resolution ---------------------------------------------------------------------------------------------

  /** Which strategy serves a platform: the first list that names it decides, whatever the later lists contain. */
  lemma StrategyOf(data: Data, isIp: string -> bool, p: string)
    requires Resolve(data, isIp, p).Some?
    ensures var pc := Resolve(data, isIp, p).value;
      var local, dynamic, pool := Listed(data, "local-platforms", p), Listed(data, "dynamic-platforms", p), Listed(data, "dynamic-pool-platforms", p);
      && (pc.Local? <==> local)
      && (pc.DynamicResolver? <==> !local && dynamic)
      && (pc.DynamicHostPool? <==> !local && !dynamic && pool)
      && (pc.HostPool? <==> !local && !dynamic && !pool)
  {
    hide PlatformList, DynamicPlatform, PoolPlatform, StaticPlatform;
  }

  lemma LocalNeedsNoMore(data: Data, isIp: string -> bool, p: string)
    requires Listed(data, "local-platforms", p)
    ensures Resolve(data, isIp, p) == Some(Local)
  {
    hide PlatformList;
  }

  /** The pool of a static platform has exactly the hosts of the ConfigMap that name it. */
  lemma StaticHostsExactly(data: Data, isIp: string -> bool, p: string, name: string)
    requires StaticPlatform(data, isIp, p).Some?
    ensures var hosts := StaticPlatform(data, isIp, p).value.hosts;
      && (name in hosts <==> name in HostNames(data) && StaticHost(data, isIp, name).value.platform == p)
      && (name in hosts ==> StaticHost(data, isIp, name) == Some(hosts[name]))
      && (name in HostNames(data) ==> StaticHost(data, isIp, name).Some?)
  {
    hide StaticHost, HostNames;
  }

  /** The name in the key of a host field: everything between "host." and the last dot. */
  lemma HostKey(name: string, field: string)
    requires '.' !in field
    ensures HostNameIn("host." + name + "." + field) == Some(name)
  {
    var key := "host." + name + "." + field;
    assert key[..5] == "host.";
    assert key[5..] == name + "." + field;
    var rest := name + "." + field;
    var dot := LastIndex(rest, '.');
    assert rest[|name|] == '.';
    assert '.' in rest;
    assert rest[|name| + 1..] == field;
    LastDot(rest, |name|, dot);
    assert rest[..|name|] == name;
  }

  lemma LastDot(s: string, i: nat, dot: int)
    requires i < |s| && s[i] == '.' && '.' !in s[i + 1..]
    requires 0 <= dot < |s| && s[dot] == '.' && '.' !in s[dot + 1..]
    ensures dot == i
  {
  }

  /** A host is known as soon as one of its fields is there, and a known host has such a field. */
  lemma HostNamesIff(data: Data, name: string)
    ensures name in HostNames(data) <==> exists field :: '.' !in field && HostField(name, field) in data
  {
    if name in HostNames(data) {
      var key :| key in data && HostNameIn(key) == Some(name);
      HostKeyForm(key, name);
    } else if exists field :: '.' !in field && HostField(name, field) in data {
      var field :| '.' !in field && HostField(name, field) in data;
      HostKey(name, field);
    }
  }

  function HostField(name: string, field: string): string {
    "host." + name + "." + field
  }

  lemma HostKeyForm(key: string, name: string)
    requires HostNameIn(key) == Some(name)
    ensures exists field :: '.' !in field && key == HostField(name, field)
  {
    var rest := key[5..];
    var dot := LastIndex(rest, '.');
    assert key == "host." + rest && rest == rest[..dot] + "." + rest[dot + 1..];
    assert '.' !in rest[dot + 1..] && key == HostField(name, rest[dot + 1..]);
  }

  // ---- labels ----------------------------------------------------------------------------------------------------

  /** The label of a valid platform has no slash and is as long as the platform; two platforms can have the same label. */
  lemma LabelShape(p: string)
    requires ValidPlatformFormat(p)
    ensures var l := PlatformLabel(p);
      |l| == |p| && forall i :: 0 <= i < |l| ==> l[i] != '/' && PlatformChar(l[i]) && (l[i] == p[i] || (p[i] == '/' && l[i] == '-'))
    ensures PlatformLabel("a-b/c") == PlatformLabel("a/b-c")
  {
    ValidIsText(p);
    assert PlatformLabel("a-b/c") == "a-b-c" && PlatformLabel("a/b-c") == "a-b-c";
  }
}
