/** The instance-tag check of pkg/config/validation.go and the instance names that pkg/ibm builds from a tag. */
module InstanceTags {
  import opened Text
  import opened Sorting

  // ---- parsing -----------------------------------------------------------------------------

  /** A platform and a normalised instance type. */
  datatype Parsed = Parsed(platform: string, kind: string)

  /** parseDynamicHostInstanceTypeKey. */
  function ParseKey(key: string): Option<Parsed> {
    var first, last := FirstIndex(key, '-'), LastIndex(key, '-');
    if first == -1 || last == -1 then None
    else
      DashOrder(key, first, last);
      if first == last then Some(Parsed(key[last + 1..], ""))
      else
        var kind := key[first + 1..last];
        var parts := Split(kind, '-');
        Some(Parsed(key[last + 1..], if |parts| > 1 then Join(Sort(parts), '-') else kind))
  }

  /** parseDynamicHostInstanceTypeValue. */
  function ParseValue(value: string): Option<Parsed> {
    var parts := Split(value, '-');
    if |parts| < 2 then None
    else if |parts| == 2 then Some(Parsed(parts[1], ""))
    else
      var kinds := parts[2..];
      Some(Parsed(parts[1], Join(if |kinds| > 1 then Sort(kinds) else kinds, '-')))
  }

  const MAX_TAG_PPC64LE: nat := 29
  const MAX_TAG_S390X: nat := 45

  predicate ShortEnough(platform: string, tag: string) {
    && (platform == "ppc64le" ==> |tag| <= MAX_TAG_PPC64LE)
    && (platform == "s390x" ==> |tag| <= MAX_TAG_S390X)
  }

  /** validateDynamicInstanceTag accepts. */
  predicate ValidTag(key: string, tag: string) {
    var k, v := ParseKey(key), ParseValue(tag);
    k.Some? && v.Some? && k.value.platform == v.value.platform && k.value.kind == v.value.kind
    && ShortEnough(k.value.platform, tag)
  }

  // ---- the dash-separated view -----------------------------------------------------------------

  /** The parts that name the instance type, where none counts as one empty part. */
  function OrEmpty(parts: seq<string>): seq<string> {
    if parts == [] then [""] else parts
  }

  function Normal(parts: seq<string>): string {
    Join(Sort(OrEmpty(parts)), '-')
  }

  lemma SortOne(x: string)
    ensures Sort([x]) == [x]
  {
    assert [x][1..] == [];
    assert Sort([x]) == Insert(x, Sort([]));
  }

  lemma KeyParts(key: string)
    ensures var parts := Split(key, '-');
      ParseKey(key) == if |parts| < 2 then None else Some(Parsed(parts[|parts| - 1], Normal(parts[1..|parts| - 1])))
  {
    hide *;
    SplitOne(key, '-');
    KeyCases(key);
    if '-' in key {
      var first, last := FirstIndex(key, '-'), LastIndex(key, '-');
      var parts := Split(key, '-');
      if first == last {
        OneDash(key, first);
        NormalOfNone();
        assert parts[1..|parts| - 1] == [];
      } else {
        TwoDashes(key, first, last);
        var kinds := Split(key[first + 1..last], '-');
        assert ([key[..first]] + kinds + [key[last + 1..]])[1..|kinds| + 1] == kinds;
      }
    }
  }

  lemma KeyCases(key: string)
    ensures '-' !in key ==> ParseKey(key) == None
    ensures '-' in key ==>
      var first, last := FirstIndex(key, '-'), LastIndex(key, '-');
      && 0 <= first <= last
      && (first == last ==> ParseKey(key) == Some(Parsed(key[last + 1..], "")))
      && (first < last ==>
            var kind := key[first + 1..last];
            var parts := Split(kind, '-');
            ParseKey(key) == Some(Parsed(key[last + 1..], if |parts| > 1 then Join(Sort(parts), '-') else kind)))
  {
    hide Split, Sort, Join, FirstIndex, LastIndex;
    if '-' in key {
      DashOrder(key, FirstIndex(key, '-'), LastIndex(key, '-'));
    }
  }

  lemma DashOrder(key: string, first: nat, last: nat)
    requires first < |key| && last < |key| && key[first] == '-' && '-' !in key[last + 1..]
    ensures first <= last
  {
  }

  lemma OneDash(key: string, i: nat)
    requires i < |key| && key[i] == '-' && '-' !in key[..i] && '-' !in key[i + 1..]
    ensures Split(key, '-') == [key[..i], key[i + 1..]]
  {
    hide Split;
    assert key == key[..i] + ['-'] + key[i + 1..];
    SplitAt(key[..i], key[i + 1..], '-');
    SplitOne(key[..i], '-');
    SplitOne(key[i + 1..], '-');
  }

  lemma NormalOfNone()
    ensures Normal([]) == ""
  {
    SortOne("");
  }

  lemma TwoDashes(key: string, first: nat, last: nat)
    requires first < last < |key| && key[first] == '-' && key[last] == '-' && '-' !in key[..first] && '-' !in key[last + 1..]
    ensures var parts := Split(key, '-');
      && parts == [key[..first]] + Split(key[first + 1..last], '-') + [key[last + 1..]]
      && (var kinds := Split(key[first + 1..last], '-');
          Normal(kinds) == if |kinds| > 1 then Join(Sort(kinds), '-') else key[first + 1..last])
  {
    hide Split;
    var middle := key[first + 1..last];
    assert key == key[..first] + ['-'] + (middle + ['-'] + key[last + 1..]);
    SplitAt(key[..first], middle + ['-'] + key[last + 1..], '-');
    SplitAt(middle, key[last + 1..], '-');
    SplitOne(key[..first], '-');
    SplitOne(key[last + 1..], '-');
    SplitOne(middle, '-');
    SortOne(middle);
  }

  lemma ValueParts(value: string)
    ensures var parts := Split(value, '-');
      ParseValue(value) == if |parts| < 2 then None else Some(Parsed(parts[1], Normal(parts[2..])))
  {
    var parts := Split(value, '-');
    SortOne("");
    if |parts| == 3 {
      assert parts[2..] == [parts[2]];
      SortOne(parts[2]);
    }
  }

  /** Normal forms agree exactly when the parts are permutations of each other. */
  lemma NormalIff(p: seq<string>, q: seq<string>)
    requires SepFree(p, '-') && SepFree(q, '-')
    ensures Normal(p) == Normal(q) <==> multiset(OrEmpty(p)) == multiset(OrEmpty(q))
  {
    var a, b := OrEmpty(p), OrEmpty(q);
    SortSorts(a);
    SortSorts(b);
    SortSepFree(a);
    SortSepFree(b);
    SortIffPermutation(a, b);
    if Normal(p) == Normal(q) {
      JoinInjective(Sort(a), Sort(b), '-');
    }
  }

  lemma SortSepFree(parts: seq<string>)
    requires SepFree(parts, '-')
    ensures SepFree(Sort(parts), '-')
  {
    SortSorts(parts);
    forall i | 0 <= i < |Sort(parts)| ensures '-' !in Sort(parts)[i] {
      assert Sort(parts)[i] in multiset(Sort(parts));
      assert Sort(parts)[i] in parts;
    }
  }

  /** The tag check, for all inputs: the last part of the key is the second part of the tag, the parts between the
      first and last dash of the key are those after the second part of the tag in any order, and the tag is not too long. */
  lemma ValidTagIff(key: string, tag: string)
    ensures var k, v := Split(key, '-'), Split(tag, '-');
      ValidTag(key, tag) <==>
        && |k| >= 2 && |v| >= 2 && k[|k| - 1] == v[1]
        && multiset(OrEmpty(k[1..|k| - 1])) == multiset(OrEmpty(v[2..]))
        && ShortEnough(v[1], tag)
  {
    KeyParts(key);
    ValueParts(tag);
    var k, v := Split(key, '-'), Split(tag, '-');
    if |k| >= 2 && |v| >= 2 {
      NormalIff(k[1..|k| - 1], v[2..]);
    }
    hide ParseKey, ParseValue, Normal, Split;
  }

  predicate Plain(s: string) { s != "" && '-' !in s }

  /** The convention: "OS-Type-Platform" and "Prefix-Platform-Type" agree exactly when the types have the same parts. */
  lemma ConventionIff(os: string, p: seq<string>, platform: string, prefix: string, q: seq<string>)
    requires '-' !in os && '-' !in platform && '-' !in prefix
    requires (forall i :: 0 <= i < |p| ==> Plain(p[i])) && (forall i :: 0 <= i < |q| ==> Plain(q[i]))
    ensures var tag := Join([prefix, platform] + q, '-');
      ValidTag(Join([os] + p + [platform], '-'), tag) <==> multiset(p) == multiset(q) && ShortEnough(platform, tag)
  {
    var k, v := [os] + p + [platform], [prefix, platform] + q;
    SplitJoin(k, '-');
    SplitJoin(v, '-');
    ValidTagIff(Join(k, '-'), Join(v, '-'));
    assert k[1..|k| - 1] == p && v[2..] == q;
    EmptyOrNot(p, q);
    EmptyOrNot(q, p);
  }

  lemma EmptyOrNot(p: seq<string>, q: seq<string>)
    requires (forall i :: 0 <= i < |p| ==> Plain(p[i])) && (forall i :: 0 <= i < |q| ==> Plain(q[i]))
    ensures p == [] ==> (multiset(OrEmpty(p)) == multiset(OrEmpty(q)) <==> q == [])
    ensures p == [] ==> (multiset(p) == multiset(q) <==> q == [])
  {
    if p == [] && q != [] {
      assert q[0] in multiset(q) && q[0] !in multiset([""]) && q[0] !in multiset(p);
    }
  }

  // ---- instance names -----------------------------------------------------------------------------

  predicate Upper(c: char) { 'A' <= c <= 'Z' }
  predicate NameChar(c: char) { 'a' <= c <= 'z' || '0' <= c <= '9' || c == '-' }
  predicate TagChar(c: char) { 'a' <= c <= 'z' || Upper(c) || '0' <= c <= '9' || c == '_' || c == '-' }
  predicate HexChar(c: char) { '0' <= c <= '9' || 'a' <= c <= 'f' }

  /** The pattern for tags: letters, digits, hyphens and underscores, no hyphen first. */
  predicate TagPattern(tag: string) {
    tag != "" && tag[0] != '-' && forall i :: 0 <= i < |tag| ==> TagChar(tag[i])
  }

  /** strings.ToLower on these characters, then strings.ReplaceAll of "_" by "-". */
  function NameCharOf(c: char): char {
    if Upper(c) then c - 'A' + 'a' else if c == '_' then '-' else c
  }

  function Sanitised(s: string): (r: string)
    ensures |r| == |s| && forall i :: 0 <= i < |s| ==> r[i] == NameCharOf(s[i])
  {
    seq(|s|, i requires 0 <= i < |s| => NameCharOf(s[i]))
  }

  const HASH_LENGTH: nat := 16

  predicate IsHash(hash: string) {
    |hash| == HASH_LENGTH && forall i :: 0 <= i < |hash| ==> HexChar(hash[i])
  }

  /** The beginning of the hexadecimal MD5 sum of a tag and the time. */
  type Hash = hash: string | IsHash(hash) witness "0123456789abcdef"

  function Named(tag: string, hash: Hash): string {
    Sanitised(tag + "-" + hash + "x")
  }

  /** createInstanceName. */
  function InstanceName(tag: string, hash: Hash): Option<string> {
    if TagPattern(tag) then Some(Named(tag, hash)) else None
  }

  /** A name is built exactly for tags that match the pattern; it is made of lower-case letters, digits and hyphens,
      does not start with a hyphen unless the tag starts with an underscore, and is 18 characters longer than the tag. */
  lemma NameShape(tag: string, hash: Hash)
    ensures InstanceName(tag, hash).Some? <==> TagPattern(tag)
    ensures InstanceName(tag, hash).Some? ==>
      var name := InstanceName(tag, hash).value;
      && |name| == |tag| + 18
      && (forall i :: 0 <= i < |name| ==> NameChar(name[i]))
      && (name[0] == '-' <==> tag[0] == '_')
  {
  }

  /** Tags that the configuration check accepts give names that IBM accepts the length of. */
  lemma ValidTagNameLength(key: string, tag: string, hash: Hash)
    requires ValidTag(key, tag) && InstanceName(tag, hash).Some?
    ensures var platform := Split(tag, '-')[1];
      && (platform == "ppc64le" ==> |InstanceName(tag, hash).value| <= 47)
      && (platform == "s390x" ==> |InstanceName(tag, hash).value| <= 63)
  {
    ValidTagIff(key, tag);
    NameShape(tag, hash);
  }

  /** No upper-case letter and no underscore. */
  predicate Canonical(tag: string) {
    forall i :: 0 <= i < |tag| ==> !Upper(tag[i]) && tag[i] != '_'
  }

  lemma NameParts(tag: string, hash: Hash)
    requires Canonical(tag)
    ensures Named(tag, hash) == tag + "-" + hash + "x"
  {
  }

  /** Counting and listing by prefix sees a new instance exactly when the tag has no upper-case letter and no underscore. */
  lemma NameStartsWithTag(tag: string, hash: Hash)
    ensures HasPrefix(Named(tag, hash), tag) <==> Canonical(tag)
  {
    var name := Named(tag, hash);
    forall i | 0 <= i < |tag| ensures name[..|tag|][i] == NameCharOf(tag[i]) {}
    if HasPrefix(name, tag) {
      forall i | 0 <= i < |tag| ensures !Upper(tag[i]) && tag[i] != '_' {
        assert name[..|tag|][i] == tag[i];
      }
    }
  }

  /** Counting by the prefix `tag` sees some instance of `other`. */
  ghost predicate Confusable(tag: string, other: string) {
    exists hash: Hash :: HasPrefix(Named(other, hash), tag)
  }

  /** What can follow the hyphen of a name. */
  predicate HashStart(s: string) {
    && |s| <= HASH_LENGTH + 1
    && (forall i :: 0 <= i < |s| && i < HASH_LENGTH ==> HexChar(s[i]))
    && (|s| > HASH_LENGTH ==> s[HASH_LENGTH] == 'x')
  }

  /** Some hash starts with `s`, as far as `s` goes. */
  function HashFrom(s: string): (hash: Hash)
    requires HashStart(s)
    ensures HasPrefix(hash + "x", s)
  {
    seq(HASH_LENGTH, i requires 0 <= i < HASH_LENGTH => if i < |s| then s[i] else '0')
  }

  /** Two platforms are told apart unless one tag starts with the other or looks like the beginning of a name of the
      other. The configuration check accepts such pairs, "prod-s390x" and "prod-s390x-large" for example. */
  lemma ConfusableIff(tag: string, other: string)
    requires Canonical(other)
    ensures Confusable(tag, other) <==>
      HasPrefix(other, tag) || (HasPrefix(tag, other + "-") && HashStart(tag[|other| + 1..]))
  {
    if HasPrefix(other, tag) {
      ShortTagConfusable(tag, other);
    } else if HasPrefix(tag, other + "-") && HashStart(tag[|other| + 1..]) {
      LongTagConfusable(tag, other);
    } else if Confusable(tag, other) {
      var hash: Hash :| HasPrefix(Named(other, hash), tag);
      NameParts(other, hash);
      TagInName(tag, other, hash);
    }
  }

  lemma ShortTagConfusable(tag: string, other: string)
    requires Canonical(other) && HasPrefix(other, tag)
    ensures Confusable(tag, other)
  {
    var hash: Hash := HashFrom("");
    NameParts(other, hash);
    assert Named(other, hash)[..|tag|] == other[..|tag|];
  }

  lemma LongTagConfusable(tag: string, other: string)
    requires Canonical(other) && HasPrefix(tag, other + "-") && HashStart(tag[|other| + 1..])
    ensures Confusable(tag, other)
  {
    var rest := tag[|other| + 1..];
    var hash: Hash := HashFrom(rest);
    NameParts(other, hash);
    assert tag == (other + "-") + rest;
    assert Named(other, hash) == (other + "-") + (hash + "x");
    assert Named(other, hash)[..|tag|] == (other + "-") + (hash + "x")[..|rest|];
  }

  lemma TagInName(tag: string, other: string, hash: Hash)
    requires HasPrefix(other + "-" + hash + "x", tag)
    ensures HasPrefix(other, tag) || (HasPrefix(tag, other + "-") && HashStart(tag[|other| + 1..]))
  {
    var name := other + "-" + hash + "x";
    if |tag| <= |other| {
      assert name[..|tag|] == other[..|tag|];
    } else {
      assert tag[..|other| + 1] == name[..|other| + 1] == other + "-";
      var rest := tag[|other| + 1..];
      forall i | 0 <= i < |rest| ensures rest[i] == (hash + "x")[i] {
        assert rest[i] == tag[|other| + 1 + i] == name[|other| + 1 + i];
      }
    }
  }

  lemma JoinTwo(a: string, b: string)
    ensures Join([a, b], '-') == a + "-" + b
  {
    assert [a, b][1..] == [b];
  }

  lemma JoinThree(a: string, b: string, c: string)
    ensures Join([a, b, c], '-') == a + "-" + b + "-" + c
  {
    JoinTwo(b, c);
    assert [a, b, c][1..] == [b, c];
  }

  lemma SimpleTagsIff(os: string, kind: string, platform: string, prefix: string)
    requires '-' !in os && '-' !in platform && '-' !in prefix && Plain(kind)
    ensures ValidTag(os + "-" + platform, prefix + "-" + platform) <==> ShortEnough(platform, prefix + "-" + platform)
    ensures ValidTag(os + "-" + kind + "-" + platform, prefix + "-" + platform + "-" + kind) <==>
      ShortEnough(platform, prefix + "-" + platform + "-" + kind)
  {
    ConventionIff(os, [], platform, prefix, []);
    ConventionIff(os, [kind], platform, prefix, [kind]);
    hide ValidTag, Join, ShortEnough;
    JoinTwo(os, platform);
    JoinTwo(prefix, platform);
    JoinThree(os, kind, platform);
    JoinThree(prefix, platform, kind);
    assert [os] + [] + [platform] == [os, platform];
    assert [prefix, platform] + [] == [prefix, platform];
    assert [os] + [kind] + [platform] == [os, kind, platform];
    assert [prefix, platform] + [kind] == [prefix, platform, kind];
  }

  /** Both tags pass the configuration check, and counting by the first sees every instance of the second. */
  lemma PrefixTagsConfused(hash: Hash)
    ensures ValidTag("linux-s390x", "prod-s390x") && ValidTag("linux-large-s390x", "prod-s390x-large")
    ensures HasPrefix(Named("prod-s390x-large", hash), "prod-s390x")
  {
    hide ValidTag;
    SimpleTagsIff("linux", "large", "s390x", "prod");
    assert "linux" + "-" + "s390x" == "linux-s390x" && "prod" + "-" + "s390x" == "prod-s390x";
    assert "linux" + "-" + "large" + "-" + "s390x" == "linux-large-s390x";
    assert "prod" + "-" + "s390x" + "-" + "large" == "prod-s390x-large";
    NameParts("prod-s390x-large", hash);
    assert Named("prod-s390x-large", hash)[..10] == "prod-s390x";
  }
}
