/**
 * Every way kube-vnet spells the identity of a virtual network: label suffixes, references, resolution keys,
 * stamps, the network label of a policy, and policy names.
 */
module Names {
  import opened Prelude

  /** `<home>.<vnet>`, or bare `cluster` for the cluster singleton. */
  type VnetKey = string

  const CLUSTER := "cluster"

  /** A reference to a vnet; an empty namespace is inferred. */
  datatype Ref = Ref(ns: string, name: string)

  /** Namespace and vnet names are DNS-1123 labels; what matters here is that they are non-empty and hold no dot. */
  predicate DnsLabel(s: string) {
    s != "" && '.' !in s
  }

  predicate VnetName(v: ObjectKey) {
    DnsLabel(v.ns) && DnsLabel(v.name)
  }

  // ---- strings.Cut at the first dot ----

  function Cut(s: string): Option<(string, string)> {
    if s == "" then None
    else if s[0] == '.' then Some(("", s[1..]))
    else match Cut(s[1..])
         case None => None
         case Some(p) => Some(([s[0]] + p.0, p.1))
  }

  lemma {:induction false} CutParts(s: string)
    ensures Cut(s).None? <==> '.' !in s
    ensures Cut(s).Some? ==> '.' !in Cut(s).value.0 && s == Cut(s).value.0 + "." + Cut(s).value.1
  {
    if s != "" {
      assert s == [s[0]] + s[1..];
      if s[0] != '.' { CutParts(s[1..]); }
    }
  }

  lemma {:induction false} CutJoin(a: string, b: string)
    requires '.' !in a
    ensures Cut(a + "." + b) == Some((a, b))
  {
    var s := a + "." + b;
    if a == "" {
      assert s[1..] == b;
    } else {
      assert s[1..] == a[1..] + "." + b;
      CutJoin(a[1..], b);
      assert a == [a[0]] + a[1..];
    }
  }

  // ---- resolution keys and stamps ----

  /** Splits a key into its home namespace ("" for the cluster singleton) and vnet name. */
  function SplitVnetKey(k: VnetKey): Option<(string, string)> {
    if k == "" then None
    else if k == CLUSTER then Some(("", CLUSTER))
    else match Cut(k)
         case None => None
         case Some(p) => if p.0 == "" || p.1 == "" then None else Some(p)
  }

  /** The canonical key of a vnet, which is also the suffix of its stamp. */
  function CanonicalKey(v: ObjectKey): VnetKey {
    if v.name == CLUSTER then CLUSTER else v.ns + "." + v.name
  }

  /** The key a join-label suffix asks for, seen from a pod in scopeNS. */
  function CanonicalSuffix(suffix: string, scopeNS: string): VnetKey {
    if suffix == CLUSTER then CLUSTER
    else if '.' in suffix then suffix
    else scopeNS + "." + suffix
  }

  /** Whether a join-label suffix is the invalid `<X>.cluster`. */
  predicate IsPrefixedClusterSuffix(suffix: string) {
    var tail := "." + CLUSTER;
    |suffix| >= |tail| && suffix[|suffix| - |tail|..] == tail
  }

  /** The key a reference asks for; permission is decided on it before it is stamped. */
  function CanonicalVnetKey(ref: Ref, podNS: string): VnetKey {
    if ref.ns == "" then
      if ref.name == CLUSTER then CLUSTER else podNS + "." + ref.name
    else ref.ns + "." + ref.name
  }

  /** The identity stamped for a permitted key: any `<ns>.cluster` becomes bare `cluster`. */
  function StampedVnetKey(k: VnetKey): VnetKey {
    var split := SplitVnetKey(k);
    if split.Some? && split.value.1 == CLUSTER then CLUSTER else k
  }

  /** The vnet a binding refers to. */
  function BindingTarget(ref: Ref, bindingNS: string, operatorNS: string): ObjectKey {
    if ref.ns != "" then ObjectKey(ref.ns, ref.name)
    else if ref.name == CLUSTER then ObjectKey(operatorNS, CLUSTER)
    else ObjectKey(bindingNS, ref.name)
  }

  /** The vnet a pod label (join label or stamp) with this suffix wakes. */
  function LabelTarget(suffix: string, podNS: string, operatorNS: string): ObjectKey {
    if suffix == CLUSTER && operatorNS != "" then ObjectKey(operatorNS, CLUSTER)
    else match Cut(suffix)
         case Some(p) => ObjectKey(p.0, p.1)
         case None => ObjectKey(podNS, suffix)
  }

  /** The value of a membership policy's network label, and the vnet that label wakes. */
  function NetworkId(v: ObjectKey): string {
    v.ns + "." + v.name
  }

  /** Every identity a network label can spell; the namespace is what precedes the first dot. */
  predicate Addressable(v: ObjectKey) {
    '.' !in v.ns
  }

  function NetworkIdTarget(id: string): Option<ObjectKey> {
    match Cut(id)
    case None => None
    case Some(p) => Some(ObjectKey(p.0, p.1))
  }

  lemma CanonicalKeyOfUserVnet(v: ObjectKey)
    requires VnetName(v) && v.name != CLUSTER
    ensures Cut(CanonicalKey(v)) == Some((v.ns, v.name))
    ensures CanonicalKey(v) != CLUSTER && CanonicalKey(v) != "" && '.' in CanonicalKey(v)
    ensures SplitVnetKey(CanonicalKey(v)) == Some((v.ns, v.name))
    ensures StampedVnetKey(CanonicalKey(v)) == CanonicalKey(v)
  {
    CutJoin(v.ns, v.name);
    CutParts(CanonicalKey(v));
    assert '.' !in CLUSTER;
  }

  /**
   * Whatever path names a vnet, it is the same vnet: from its own namespace by bare join label or bare
   * reference, from anywhere by the qualified form, and from its stamp, its binding target and its policies.
   */
  lemma NamingPathsAgree(v: ObjectKey, podNS: string, operatorNS: string)
    requires VnetName(v) && v.name != CLUSTER
    ensures CanonicalSuffix(NetworkId(v), podNS) == CanonicalKey(v)
    ensures CanonicalSuffix(v.name, v.ns) == CanonicalKey(v)
    ensures StampedVnetKey(CanonicalVnetKey(Ref(v.ns, v.name), podNS)) == CanonicalKey(v)
    ensures StampedVnetKey(CanonicalVnetKey(Ref("", v.name), v.ns)) == CanonicalKey(v)
    ensures SplitVnetKey(CanonicalKey(v)) == Some((v.ns, v.name))
    ensures LabelTarget(CanonicalKey(v), podNS, operatorNS) == v && LabelTarget(v.name, v.ns, operatorNS) == v
    ensures BindingTarget(Ref(v.ns, v.name), podNS, operatorNS) == v
    ensures BindingTarget(Ref("", v.name), v.ns, operatorNS) == v
    ensures NetworkIdTarget(NetworkId(v)) == Some(v)
    ensures !IsPrefixedClusterSuffix(NetworkId(v)) && !IsPrefixedClusterSuffix(v.name)
  {
    CanonicalKeyOfUserVnet(v);
    CutJoin(v.ns, v.name);
    CutParts(v.name);
    NotPrefixedCluster(v);
  }

  lemma NotPrefixedCluster(v: ObjectKey)
    requires VnetName(v) && v.name != CLUSTER
    ensures !IsPrefixedClusterSuffix(NetworkId(v)) && !IsPrefixedClusterSuffix(v.name)
  {
    PrefixedClusterShape(NetworkId(v));
    PrefixedClusterShape(v.name);
    OnlyDot(v.ns, v.name);
  }

  lemma OnlyDot(a: string, b: string)
    requires '.' !in a && '.' !in b
    ensures var s := a + "." + b; (forall i | 0 <= i < |s| && s[i] == '.' :: i == |a|) && s[|a| + 1..] == b
  {
  }

  lemma PrefixedClusterShape(s: string)
    ensures IsPrefixedClusterSuffix(s) ==> |s| >= 8 && s[|s| - 8] == '.' && s[|s| - 7..] == CLUSTER
  {
  }

  /** The cluster singleton has one key and one target, however it is named. */
  lemma ClusterNamingAgrees(podNS: string, operatorNS: string)
    requires DnsLabel(operatorNS)
    ensures CanonicalSuffix(CLUSTER, podNS) == CLUSTER == CanonicalKey(ObjectKey(operatorNS, CLUSTER))
    ensures StampedVnetKey(CanonicalVnetKey(Ref("", CLUSTER), podNS)) == CLUSTER
    ensures StampedVnetKey(CanonicalVnetKey(Ref(operatorNS, CLUSTER), podNS)) == CLUSTER
    ensures LabelTarget(CLUSTER, podNS, operatorNS) == ObjectKey(operatorNS, CLUSTER)
    ensures BindingTarget(Ref("", CLUSTER), podNS, operatorNS) == ObjectKey(operatorNS, CLUSTER)
    ensures NetworkIdTarget(NetworkId(ObjectKey(operatorNS, CLUSTER))) == Some(ObjectKey(operatorNS, CLUSTER))
    ensures IsPrefixedClusterSuffix(operatorNS + "." + CLUSTER)
  {
    CutJoin(operatorNS, CLUSTER);
    var s, tail := operatorNS + "." + CLUSTER, "." + CLUSTER;
    assert s == operatorNS + tail;
    assert s[|s| - |tail|..] == tail;
  }

  /** Two vnets share a stamp only if both are named `cluster`. */
  lemma CanonicalKeyInjective(v: ObjectKey, w: ObjectKey)
    requires VnetName(v) && VnetName(w)
    ensures CanonicalKey(v) == CanonicalKey(w) <==> v == w || (v.name == CLUSTER && w.name == CLUSTER)
  {
    if v.name != CLUSTER { CanonicalKeyOfUserVnet(v); }
    if w.name != CLUSTER { CanonicalKeyOfUserVnet(w); }
  }

  lemma NetworkIdInjective(v: ObjectKey, w: ObjectKey)
    requires '.' !in v.ns && '.' !in w.ns
    ensures NetworkId(v) == NetworkId(w) <==> v == w
  {
    CutJoin(v.ns, v.name);
    CutJoin(w.ns, w.name);
  }

  // ---- pod label keys ----

  /** A pod label key, by the family its prefix puts it in. */
  datatype LabelKey =
    | Join(suffix: string)
    | Stamp(key: VnetKey)
    | HostPort(id: string)
    | Other(raw: string)

  const JOIN_PREFIX := "kube-vnet/net."
  const STAMP_PREFIX := "kube-vnet.system/net."
  const HOST_PORT_PREFIX := "kube-vnet.system/host-port."

  predicate HasPrefix(s: string, prefix: string) {
    prefix <= s
  }

  function RenderLabel(k: LabelKey): string {
    match k
    case Join(s) => JOIN_PREFIX + s
    case Stamp(s) => STAMP_PREFIX + s
    case HostPort(s) => HOST_PORT_PREFIX + s
    case Other(s) => s
  }

  function ParseLabel(s: string): LabelKey {
    if HasPrefix(s, JOIN_PREFIX) then Join(s[|JOIN_PREFIX|..])
    else if HasPrefix(s, STAMP_PREFIX) then Stamp(s[|STAMP_PREFIX|..])
    else if HasPrefix(s, HOST_PORT_PREFIX) then HostPort(s[|HOST_PORT_PREFIX|..])
    else Other(s)
  }

  /** Label strings and label keys are the same thing: parsing and rendering are inverse on every string. */
  lemma LabelRoundTrip(s: string, k: LabelKey)
    ensures RenderLabel(ParseLabel(s)) == s
    ensures !k.Other? ==> ParseLabel(RenderLabel(k)) == k
    ensures k.Other? ==> (ParseLabel(k.raw) == k <==>
      !HasPrefix(k.raw, JOIN_PREFIX) && !HasPrefix(k.raw, STAMP_PREFIX) && !HasPrefix(k.raw, HOST_PORT_PREFIX))
  {
    assert JOIN_PREFIX[9] == '/' && STAMP_PREFIX[9] == '.' && HOST_PORT_PREFIX[9] == '.';
    assert STAMP_PREFIX[17] == 'n' && HOST_PORT_PREFIX[17] == 'h';
    match k
    case Join(x) => assert RenderLabel(k)[|JOIN_PREFIX|..] == x;
    case Stamp(x) => assert RenderLabel(k)[|STAMP_PREFIX|..] == x;
    case HostPort(x) => assert RenderLabel(k)[|HOST_PORT_PREFIX|..] == x;
    case Other(_) =>
  }

  // ---- policy names ----

  ghost predicate IsHex8(s: string) {
    |s| == 8 && forall c | c in s :: c in "0123456789abcdef"
  }

  /** The first four bytes of SHA-256, in hex. Nothing but the shape of the digest is used. */
  type HashFn = h: string -> string | forall s :: IsHex8(h(s)) witness s => "00000000"

  const MAX_NAME := 253

  function Truncate(hash: HashFn, name: string): string {
    if |name| <= MAX_NAME then name else name[..MAX_NAME - 9] + "-" + hash(name)
  }

  const MEMBERSHIP_PREFIX := "kube-vnet.mem."

  function FullPolicyName(hash: HashFn, v: ObjectKey): string {
    if v.name == CLUSTER then MEMBERSHIP_PREFIX + CLUSTER + "-" + hash("membership\0\0cluster")
    else MEMBERSHIP_PREFIX + NetworkId(v) + "-" + hash("membership\0" + v.ns + "\0" + v.name)
  }

  function PolicyName(hash: HashFn, v: ObjectKey): (r: string)
    ensures |r| <= MAX_NAME
  {
    Truncate(hash, FullPolicyName(hash, v))
  }

  /** The names whose policy name is not cut to length. */
  predicate ShortName(v: ObjectKey) {
    |v.ns| + |v.name| <= MAX_NAME - |MEMBERSHIP_PREFIX| - 10
  }

  /** Vnets keep distinct policy names without any assumption on hash collisions, unless a name is truncated. */
  lemma PolicyNameInjective(hash: HashFn, v: ObjectKey, w: ObjectKey)
    requires VnetName(v) && VnetName(w) && ShortName(v) && ShortName(w)
    ensures PolicyName(hash, v) == PolicyName(hash, w) <==> CanonicalKey(v) == CanonicalKey(w)
  {
    PolicyNameShape(hash, v);
    PolicyNameShape(hash, w);
    if PolicyName(hash, v) == PolicyName(hash, w) {
      var body := PolicyName(hash, v)[|MEMBERSHIP_PREFIX|..];
      assert body[..|body| - 9] == CanonicalKey(v) == CanonicalKey(w);
    } else if CanonicalKey(v) == CanonicalKey(w) {
      CanonicalKeyInjective(v, w);
    }
  }

  function Digest(hash: HashFn, v: ObjectKey): string {
    if v.name == CLUSTER then hash("membership\0\0cluster") else hash("membership\0" + v.ns + "\0" + v.name)
  }

  lemma DigestLength(hash: HashFn, v: ObjectKey)
    ensures |Digest(hash, v)| == 8
  {
    var text := if v.name == CLUSTER then "membership\0\0cluster" else "membership\0" + v.ns + "\0" + v.name;
    assert IsHex8(hash(text));
  }

  lemma FullPolicyNameParts(hash: HashFn, v: ObjectKey)
    ensures FullPolicyName(hash, v) == MEMBERSHIP_PREFIX + CanonicalKey(v) + "-" + Digest(hash, v)
    ensures |Digest(hash, v)| == 8
  {
    DigestLength(hash, v);
  }

  lemma JoinedParts(prefix: string, key: string, rest: string)
    ensures var full := prefix + key + "-" + rest;
            && |full| == |prefix| + |key| + 1 + |rest|
            && full[..|prefix|] == prefix && full[|prefix|..][..|key|] == key
  {
  }

  lemma PolicyNameShape(hash: HashFn, v: ObjectKey)
    requires ShortName(v)
    ensures var name := PolicyName(hash, v);
            && |name| == |MEMBERSHIP_PREFIX| + |CanonicalKey(v)| + 9
            && name[..|MEMBERSHIP_PREFIX|] == MEMBERSHIP_PREFIX
            && name[|MEMBERSHIP_PREFIX|..][..|CanonicalKey(v)|] == CanonicalKey(v)
  {
    FullPolicyNameParts(hash, v);
    JoinedParts(MEMBERSHIP_PREFIX, CanonicalKey(v), Digest(hash, v));
  }
}
