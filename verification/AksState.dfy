/**
 The saved state of the Azure driver: which JSON keys its fields are written under, and under
 which option names they are read back.
 */
module AksState {
  import opened Base
  import opened DriverOptions
  import opened OptionMaps
  import Labels
  import opened OptionOrder

  datatype TextField =
    | SubscriptionID
    | ResourceGroup
    | Name
    | AzureADClientAppID
    | AzureADServerAppID
    | AzureADServerAppSecret
    | AzureADTenantID
    | LogAnalyticsWorkspaceResourceGroup
    | LogAnalyticsWorkspace
    | AgentDNSPrefix
    | AgentName
    | AgentVMSize
    | LoadBalancerSku
    | VirtualNetworkResourceGroup
    | VirtualNetwork
    | Subnet
    | LinuxAdminUsername
    | LinuxSSHPublicKeyContents
    | NetworkDNSServiceIP
    | NetworkDockerBridgeCIDR
    | NetworkPlugin
    | NetworkPolicy
    | NetworkPodCIDR
    | NetworkServiceCIDR
    | Location
    | DNSPrefix
    | KubernetesVersion
    | BaseURL
    | AuthBaseURL
    | ClientID
    | ClientSecret
    | TenantID
    | DisplayName

  datatype NumberField = AgentCount | AgentMaxPods | AgentOsdiskSizeGB

  datatype FlagField = AddonEnableHTTPApplicationRouting | AddonEnableMonitoring

  /** The struct `state`, its fields grouped by type (ClusterInfo is never marshalled). */
  datatype State = State(
    text: TextField -> string,
    number: NumberField -> int,
    flag: FlagField -> bool,
    tags: map<string, string>)

  function TextKey(f: TextField): (r: string) {
    match f
    case SubscriptionID => "subscriptionId"
    case ResourceGroup => "resourceGroup"
    case Name => "name"
    case AzureADClientAppID => "addClientAppId"
    case AzureADServerAppID => "addServerAppId"
    case AzureADServerAppSecret => "addServerAppSecret"
    case AzureADTenantID => "addTenantId"
    case LogAnalyticsWorkspaceResourceGroup => "logAnalyticsWorkspaceResourceGroup"
    case LogAnalyticsWorkspace => "logAnalyticsWorkspace"
    case AgentDNSPrefix => "agentDnsPrefix"
    case AgentName => "agentPoolName"
    case AgentVMSize => "agentVmSize"
    case LoadBalancerSku => "loadBalancerSku"
    case VirtualNetworkResourceGroup => "virtualNetworkResourceGroup"
    case VirtualNetwork => "virtualNetwork"
    case Subnet => "subnet"
    case LinuxAdminUsername => "adminUsername"
    case LinuxSSHPublicKeyContents => "sshPublicKeyContents"
    case NetworkDNSServiceIP => "dnsServiceIp"
    case NetworkDockerBridgeCIDR => "dockerBridgeCidr"
    case NetworkPlugin => "networkPlugin"
    case NetworkPolicy => "networkPolicy"
    case NetworkPodCIDR => "podCidr"
    case NetworkServiceCIDR => "serviceCidr"
    case Location => "location"
    case DNSPrefix => "masterDnsPrefix"
    case KubernetesVersion => "kubernetesVersion"
    case BaseURL => "baseUrl"
    case AuthBaseURL => "authBaseUrl"
    case ClientID => "clientId"
    case ClientSecret => "clientSecret"
    case TenantID => "tenantId"
    case DisplayName => "displayName"
  }

  /** Fields without "omitempty" are written even when empty. */
  predicate AlwaysWritten(f: TextField) {
    f.SubscriptionID? || f.ResourceGroup? || f.Name? || f.BaseURL? || f.AuthBaseURL? || f.ClientID? || f.ClientSecret?
  }

  /** The name of a field as a command-line option. */
  function FlagName(f: TextField): (r: string) {
    match f
    case SubscriptionID => "subscription-id"
    case ResourceGroup => "resource-group"
    case AzureADClientAppID => "aad-client-app-id"
    case AzureADServerAppID => "aad-server-app-id"
    case AzureADServerAppSecret => "aad-server-app-secret"
    case AzureADTenantID => "aad-tenant-id"
    case LogAnalyticsWorkspaceResourceGroup => "log-analytics-workspace-resource-group"
    case LogAnalyticsWorkspace => "log-analytics-workspace"
    case AgentName => "agent-pool-name"
    case AgentVMSize => "agent-vm-size"
    case LoadBalancerSku => "load-balancer-sku"
    case VirtualNetworkResourceGroup => "virtual-network-resource-group"
    case VirtualNetwork => "virtual-network"
    case LinuxAdminUsername => "admin-username"
    case LinuxSSHPublicKeyContents => "ssh-public-key-contents"
    case NetworkDNSServiceIP => "dns-service-ip"
    case NetworkDockerBridgeCIDR => "docker-bridge-cidr"
    case NetworkPlugin => "network-plugin"
    case NetworkPolicy => "network-policy"
    case NetworkPodCIDR => "pod-cidr"
    case NetworkServiceCIDR => "service-cidr"
    case DNSPrefix => "master-dns-prefix"
    case KubernetesVersion => "kubernetes-version"
    case BaseURL => "base-url"
    case AuthBaseURL => "auth-base-url"
    case ClientID => "client-id"
    case ClientSecret => "client-secret"
    case TenantID => "tenant-id"
    case DisplayName => "display-name"
    case _ => TextKey(f)
  }

  /** The option names under which a field is read back, by priority; the agent DNS prefix is never
      read, and the ssh key also has its older names. */
  function TextAliases(f: TextField): (r: seq<string>) {
    match f
    case AgentDNSPrefix => []
    case Name => [TextKey(f)]
    case Subnet => [TextKey(f)]
    case Location => [TextKey(f)]
    case LinuxSSHPublicKeyContents => [FlagName(f), TextKey(f), "public-key-contents", "publicKeyContents"]
    case _ => [FlagName(f), TextKey(f)]
  }

  function NumberKey(f: NumberField): (r: string) {
    match f
    case AgentCount => "count"
    case AgentMaxPods => "maxPods"
    case AgentOsdiskSizeGB => "agentOsdiskSize"
  }

  function NumberAliases(f: NumberField): (r: seq<string>) {
    match f
    case AgentCount => ["count"]
    case AgentMaxPods => ["max-pods", "maxPods"]
    case AgentOsdiskSizeGB => ["agent-osdisk-size", "agentOsdiskSize", "os-disk-size", "osDiskSizeGb"]
  }

  function FlagKey(f: FlagField): (r: string) {
    match f
    case AddonEnableHTTPApplicationRouting => "enableHttpApplicationRouting"
    case AddonEnableMonitoring => "enableMonitoring"
  }

  function FlagAliases(f: FlagField): (r: seq<string>) {
    match f
    case AddonEnableHTTPApplicationRouting => ["enable-http-application-routing", "enableHttpApplicationRouting"]
    case AddonEnableMonitoring => ["enable-monitoring", "enableMonitoring"]
  }

  /** options.GetValueFromDriverOptions: the first key that is present, else the zero value. */
  function First<T>(options: map<string, T>, keys: seq<string>, zero: T): (r: T) {
    if keys == [] then zero
    else if keys[0] in options then options[keys[0]]
    else First(options, keys[1..], zero)
  }

  /** getStateFromOptions, before validation. */
  function StateFromOptions(o: Options): (r: State) {
    State((f: TextField) => First(o.strings, TextAliases(f), ""),
          (f: NumberField) => First(o.ints, NumberAliases(f), 0),
          (f: FlagField) => First(o.bools, FlagAliases(f), false),
          Labels.Parse(First(o.lists, [TAGS], [])))
  }

  // ---------------------------------------------------------------- the saved state

  /** One visit of the marshalled tags. */
  ghost predicate VisitsTags(fields: seq<Field>, tags: map<string, string>) {
    && Lists(KeysOf(fields), tags.Keys)
    && forall f :: f in fields && f.key in tags ==> f.value == Text(tags[f.key])
  }

  function KeysOf(fields: seq<Field>): (r: seq<string>)
    ensures |r| == |fields| && forall i :: 0 <= i < |fields| ==> r[i] == fields[i].key
  {
    seq(|fields|, i requires 0 <= i < |fields| => fields[i].key)
  }

  /** The fields json.Marshal writes for a state; numbers come back as float64, through `float`. */
  ghost predicate IsMember(s: State, float: int -> real, m: Field) {
    || (exists f: TextField :: (s.text(f) != "" || AlwaysWritten(f)) && m == Field(TextKey(f), Text(s.text(f))))
    || (exists f: NumberField :: s.number(f) != 0 && m == Field(NumberKey(f), Number(float(s.number(f)))))
    || (exists f: FlagField :: s.flag(f) && m == Field(FlagKey(f), Flag(true)))
    || (s.tags != map[] && m.key == TAGS && m.value.Object? && VisitsTags(m.value.fields, s.tags))
  }

  /** `fields` is one visit of the marshalled and decoded state. */
  ghost predicate Visits(fields: seq<Field>, s: State, float: int -> real) {
    && (forall m :: m in fields ==> IsMember(s, float, m))
    && (forall f: TextField :: s.text(f) != "" || AlwaysWritten(f) ==> Field(TextKey(f), Text(s.text(f))) in fields)
    && (forall f: NumberField :: s.number(f) != 0 ==> Field(NumberKey(f), Number(float(s.number(f)))) in fields)
    && (forall f: FlagField :: s.flag(f) ==> Field(FlagKey(f), Flag(true)) in fields)
    && (s.tags != map[] ==> exists m :: m in fields && m.key == TAGS)
  }

  function TextMember(s: State, f: TextField): (r: seq<Field>) {
    if s.text(f) != "" || AlwaysWritten(f) then [Field(TextKey(f), Text(s.text(f)))] else []
  }

  function TextMembers(s: State, fs: seq<TextField>): (r: seq<Field>) {
    if fs == [] then [] else TextMember(s, fs[0]) + TextMembers(s, fs[1..])
  }

  function NumberMember(s: State, float: int -> real, f: NumberField): (r: seq<Field>) {
    if s.number(f) != 0 then [Field(NumberKey(f), Number(float(s.number(f))))] else []
  }

  function FlagMember(s: State, f: FlagField): (r: seq<Field>) {
    if s.flag(f) then [Field(FlagKey(f), Flag(true))] else []
  }

  function TagFields(tags: map<string, string>, order: seq<string>): (r: seq<Field>)
    requires forall k :: k in order ==> k in tags
  {
    seq(|order|, i requires 0 <= i < |order| => Field(order[i], Text(tags[order[i]])))
  }

  function TagMember(s: State, order: seq<string>): (r: seq<Field>)
    requires forall k :: k in order ==> k in s.tags
  {
    if s.tags == map[] then [] else [Field(TAGS, Object(TagFields(s.tags, order)))]
  }

  const BEFORE_FLAGS := [
    SubscriptionID, ResourceGroup, Name, AzureADClientAppID, AzureADServerAppID, AzureADServerAppSecret, AzureADTenantID]
  const BEFORE_COUNT := [LogAnalyticsWorkspaceResourceGroup, LogAnalyticsWorkspace, AgentDNSPrefix]
  const BEFORE_TAGS := [
    AgentVMSize, LoadBalancerSku, VirtualNetworkResourceGroup, VirtualNetwork, Subnet, LinuxAdminUsername,
    LinuxSSHPublicKeyContents, NetworkDNSServiceIP, NetworkDockerBridgeCIDR, NetworkPlugin, NetworkPolicy,
    NetworkPodCIDR, NetworkServiceCIDR, TextField.Location, DNSPrefix, KubernetesVersion]
  const AFTER_TAGS := [BaseURL, AuthBaseURL, ClientID, ClientSecret, TenantID, DisplayName]

  /** The marshalled state, decoded: its fields in the order of the struct, the tags in the given
      order. */
  function Marshalled(s: State, float: int -> real, order: seq<string>): (r: seq<Field>)
    requires forall k :: k in order ==> k in s.tags
  {
    TextMembers(s, BEFORE_FLAGS)
    + FlagMember(s, AddonEnableHTTPApplicationRouting) + FlagMember(s, AddonEnableMonitoring)
    + TextMembers(s, BEFORE_COUNT)
    + NumberMember(s, float, AgentCount) + NumberMember(s, float, AgentMaxPods)
    + TextMember(s, AgentName) + NumberMember(s, float, AgentOsdiskSizeGB)
    + TextMembers(s, BEFORE_TAGS) + TagMember(s, order) + TextMembers(s, AFTER_TAGS)
  }

  lemma {:induction false} TextMembersAre(s: State, fs: seq<TextField>, m: Field)
    ensures m in TextMembers(s, fs) <==> exists f :: f in fs && m in TextMember(s, f)
  {
    if fs != [] {
      TextMembersAre(s, fs[1..], m);
      if m in TextMembers(s, fs[1..]) {
        var f :| f in fs[1..] && m in TextMember(s, f);
        assert f in fs;
      }
      if exists f :: f in fs && m in TextMember(s, f) {
        var f :| f in fs && m in TextMember(s, f);
        assert f == fs[0] || f in fs[1..];
      }
    }
  }

  lemma EveryTextField(f: TextField)
    ensures f in BEFORE_FLAGS || f in BEFORE_COUNT || f == AgentName || f in BEFORE_TAGS || f in AFTER_TAGS
  {
  }

  lemma TagFieldsVisit(s: State, order: seq<string>)
    requires Lists(order, s.tags.Keys)
    ensures VisitsTags(TagFields(s.tags, order), s.tags)
  {
    assert KeysOf(TagFields(s.tags, order)) == order;
  }

  ghost predicate SomeText(s: State, m: Field) {
    exists f: TextField :: m in TextMember(s, f)
  }

  ghost predicate SomeNumber(s: State, float: int -> real, m: Field) {
    exists f: NumberField :: m in NumberMember(s, float, f)
  }

  ghost predicate SomeFlag(s: State, m: Field) {
    exists f: FlagField :: m in FlagMember(s, f)
  }

  lemma TextsMarshalled(s: State, float: int -> real, order: seq<string>, m: Field)
    requires (forall k :: k in order ==> k in s.tags) && SomeText(s, m)
    ensures m in Marshalled(s, float, order)
  {
    hide TextMember, TextMembers, NumberMember, FlagMember, TagMember;
    var f: TextField :| m in TextMember(s, f);
    EveryTextField(f);
    TextMembersAre(s, BEFORE_FLAGS, m);
    TextMembersAre(s, BEFORE_COUNT, m);
    TextMembersAre(s, BEFORE_TAGS, m);
    TextMembersAre(s, AFTER_TAGS, m);
  }

  lemma NumbersMarshalled(s: State, float: int -> real, order: seq<string>, m: Field)
    requires (forall k :: k in order ==> k in s.tags) && (SomeNumber(s, float, m) || SomeFlag(s, m) || m in TagMember(s, order))
    ensures m in Marshalled(s, float, order)
  {
    hide TextMember, TextMembers, NumberMember, FlagMember, TagMember;
    if SomeNumber(s, float, m) {
      var f: NumberField :| m in NumberMember(s, float, f);
      assert f == AgentCount || f == AgentMaxPods || f == AgentOsdiskSizeGB;
    } else if SomeFlag(s, m) {
      var f: FlagField :| m in FlagMember(s, f);
      assert f == AddonEnableHTTPApplicationRouting || f == AddonEnableMonitoring;
    }
  }

  lemma NothingElseMarshalled(s: State, float: int -> real, order: seq<string>, m: Field)
    requires (forall k :: k in order ==> k in s.tags) && m in Marshalled(s, float, order)
    ensures SomeText(s, m) || SomeNumber(s, float, m) || SomeFlag(s, m) || m in TagMember(s, order)
  {
    hide TextMember, TextMembers, NumberMember, FlagMember, TagMember;
    TextMembersAre(s, BEFORE_FLAGS, m);
    TextMembersAre(s, BEFORE_COUNT, m);
    TextMembersAre(s, BEFORE_TAGS, m);
    TextMembersAre(s, AFTER_TAGS, m);
  }

  lemma MarshalledIsMember(s: State, float: int -> real, order: seq<string>, m: Field)
    requires Lists(order, s.tags.Keys) && m in Marshalled(s, float, order)
    ensures IsMember(s, float, m)
  {
    hide TextKey, NumberKey, FlagKey, AlwaysWritten, VisitsTags, TagFields, Marshalled;
    NothingElseMarshalled(s, float, order, m);
    TagFieldsVisit(s, order);
  }

  /** Whatever the order in which the decoded state is visited, that is a visit of the state. */
  lemma AnyOrderVisits(s: State, float: int -> real, order: seq<string>, fields: seq<Field>)
    requires Lists(order, s.tags.Keys)
    requires multiset(fields) == multiset(Marshalled(s, float, order))
    ensures Visits(fields, s, float)
  {
    hide TextKey, NumberKey, FlagKey, AlwaysWritten, TagFields, IsMember, Marshalled;
    var all := Marshalled(s, float, order);
    forall m ensures m in fields <==> m in all {
      assert m in fields <==> m in multiset(fields);
      assert m in all <==> m in multiset(all);
    }
    forall m | m in fields ensures IsMember(s, float, m) {
      MarshalledIsMember(s, float, order, m);
    }
    forall f: TextField | s.text(f) != "" || AlwaysWritten(f) ensures Field(TextKey(f), Text(s.text(f))) in fields {
      assert Field(TextKey(f), Text(s.text(f))) in TextMember(s, f);
      TextsMarshalled(s, float, order, Field(TextKey(f), Text(s.text(f))));
    }
    forall f: NumberField | s.number(f) != 0 ensures Field(NumberKey(f), Number(float(s.number(f)))) in fields {
      assert Field(NumberKey(f), Number(float(s.number(f)))) in NumberMember(s, float, f);
      NumbersMarshalled(s, float, order, Field(NumberKey(f), Number(float(s.number(f)))));
    }
    forall f: FlagField | s.flag(f) ensures Field(FlagKey(f), Flag(true)) in fields {
      assert Field(FlagKey(f), Flag(true)) in FlagMember(s, f);
      NumbersMarshalled(s, float, order, Field(FlagKey(f), Flag(true)));
    }
    if s.tags != map[] {
      var m := Field(TAGS, Object(TagFields(s.tags, order)));
      assert m in TagMember(s, order);
      NumbersMarshalled(s, float, order, m);
    }
  }

  /** Go prints a string by itself. */
  ghost predicate PrintsText(show: Json -> string) {
    forall text :: show(Text(text)) == text
  }

  ghost predicate SameButDnsPrefix(a: State, b: State) {
    && (forall f: TextField :: f != AgentDNSPrefix ==> a.text(f) == b.text(f))
    && (forall f: NumberField :: a.number(f) == b.number(f))
    && (forall f: FlagField :: a.flag(f) == b.flag(f))
    && a.tags == b.tags
  }

  /** Fields by section of the struct: account and directory, agent pool and machines, virtual
      network, and the rest. */
  predicate AccountField(f: TextField) {
    || f.SubscriptionID? || f.ResourceGroup? || f.Name? || f.AzureADClientAppID? || f.AzureADServerAppID?
    || f.AzureADServerAppSecret? || f.AzureADTenantID? || f.LogAnalyticsWorkspaceResourceGroup? || f.LogAnalyticsWorkspace?
  }

  predicate AgentField(f: TextField) {
    || f.AgentDNSPrefix? || f.AgentName? || f.AgentVMSize? || f.LoadBalancerSku? || f.LinuxAdminUsername?
    || f.LinuxSSHPublicKeyContents?
  }

  predicate NetworkField(f: TextField) {
    f.VirtualNetworkResourceGroup? || f.VirtualNetwork? || f.Subnet?
  }

  predicate ClusterField(f: TextField) {
    !AccountField(f) && !AgentField(f) && !NetworkField(f)
  }

  lemma AccountKeysDiffer(f: TextField, g: TextField)
    requires AccountField(f) && TextKey(f) == TextKey(g)
    ensures f == g
  {
  }

  lemma AgentKeysDiffer(f: TextField, g: TextField)
    requires AgentField(f) && !AccountField(g) && TextKey(f) == TextKey(g)
    ensures f == g
  {
  }

  lemma NetworkKeysDiffer(f: TextField, g: TextField)
    requires NetworkField(f) && (NetworkField(g) || ClusterField(g)) && TextKey(f) == TextKey(g)
    ensures f == g
  {
  }

  lemma ClusterKeysDiffer(f: TextField, g: TextField)
    requires ClusterField(f) && ClusterField(g) && TextKey(f) == TextKey(g)
    ensures f == g
  {
  }

  lemma AccountKeysUndashed(f: TextField)
    requires AccountField(f)
    ensures '-' !in TextKey(f)
  {
  }

  lemma AgentKeysUndashed(f: TextField)
    requires AgentField(f)
    ensures '-' !in TextKey(f)
  {
  }

  lemma NetworkKeysUndashed(f: TextField)
    requires NetworkField(f)
    ensures '-' !in TextKey(f)
  {
  }

  lemma ClusterKeysUndashed(f: TextField)
    requires ClusterField(f)
    ensures '-' !in TextKey(f)
  {
  }

  lemma AccountFlagsDashed(f: TextField)
    requires AccountField(f) && |TextAliases(f)| > 1
    ensures '-' in FlagName(f)
  {
  }

  lemma AgentFlagsDashed(f: TextField)
    requires AgentField(f) && |TextAliases(f)| > 1
    ensures '-' in FlagName(f)
  {
  }

  lemma NetworkFlagsDashed(f: TextField)
    requires NetworkField(f) && |TextAliases(f)| > 1
    ensures '-' in FlagName(f)
  {
  }

  lemma ClusterFlagsDashed(f: TextField)
    requires ClusterField(f) && |TextAliases(f)| > 1
    ensures '-' in FlagName(f)
  {
  }

  lemma OlderNames(g: TextField)
    ensures TextKey(g) != "public-key-contents" && TextKey(g) != "publicKeyContents"
  {
  }

  /** No option name of a field is the JSON key of another one, and its own key is among them. */
  lemma TextAliasesAreOwn(f: TextField, g: TextField, i: nat)
    ensures i < |TextAliases(f)| && TextAliases(f)[i] == TextKey(g) ==> f == g
    ensures f != AgentDNSPrefix ==> TextKey(f) in TextAliases(f)
  {
    hide TextKey, FlagName;
    OlderNames(g);
    if |TextAliases(f)| > 1 {
      FlagNameIsNoKey(f, g);
    }
    if TextKey(f) == TextKey(g) {
      TextKeysDiffer(f, g);
    }
  }

  /** The JSON keys are free of dashes, and the option names that differ from them are not. */
  lemma FlagNameIsNoKey(f: TextField, g: TextField)
    requires |TextAliases(f)| > 1
    ensures FlagName(f) != TextKey(g)
  {
    hide TextKey, FlagName, TextAliases;
    FlagIsDashed(f);
    KeyIsUndashed(g);
  }

  lemma FlagIsDashed(f: TextField)
    requires |TextAliases(f)| > 1
    ensures '-' in FlagName(f)
  {
    hide FlagName, TextAliases;
    if AccountField(f) {
      AccountFlagsDashed(f);
    } else if AgentField(f) {
      AgentFlagsDashed(f);
    } else if NetworkField(f) {
      NetworkFlagsDashed(f);
    } else {
      ClusterFlagsDashed(f);
    }
  }

  lemma KeyIsUndashed(f: TextField)
    ensures '-' !in TextKey(f)
  {
    hide TextKey;
    if AccountField(f) {
      AccountKeysUndashed(f);
    } else if AgentField(f) {
      AgentKeysUndashed(f);
    } else if NetworkField(f) {
      NetworkKeysUndashed(f);
    } else {
      ClusterKeysUndashed(f);
    }
  }

  lemma TextKeysDiffer(f: TextField, g: TextField)
    requires TextKey(f) == TextKey(g)
    ensures f == g
  {
    hide TextKey;
    if AccountField(f) {
      AccountKeysDiffer(f, g);
    } else if AccountField(g) {
      AccountKeysDiffer(g, f);
    } else if AgentField(f) {
      AgentKeysDiffer(f, g);
    } else if AgentField(g) {
      AgentKeysDiffer(g, f);
    } else if NetworkField(f) {
      NetworkKeysDiffer(f, g);
    } else if NetworkField(g) {
      NetworkKeysDiffer(g, f);
    } else {
      ClusterKeysDiffer(f, g);
    }
  }

  /** A lookup whose only possibly present key is `key`. */
  lemma {:induction false} FirstOnly<T>(options: map<string, T>, keys: seq<string>, zero: T, key: string)
    requires forall i :: 0 <= i < |keys| && keys[i] in options ==> keys[i] == key
    ensures First(options, keys, zero) == if key in keys && key in options then options[key] else zero
  {
    if keys != [] {
      FirstOnly(options, keys[1..], zero, key);
    }
  }

  lemma {:induction false} LeafOrigin(style: Style, fields: seq<Field>, l: Leaf)
    ensures l in Leaves(style, fields) <==> exists m :: m in fields && l in FieldLeaves(style, m)
  {
    if fields != [] {
      LeafOrigin(style, fields[1..], l);
      if l in Leaves(style, fields[1..]) {
        var m :| m in fields[1..] && l in FieldLeaves(style, m);
        assert m in fields;
      }
      if exists m :: m in fields && l in FieldLeaves(style, m) {
        var m :| m in fields && l in FieldLeaves(style, m);
        assert m == fields[0] || m in fields[1..];
      }
    }
  }

  /** What a member of the marshalled state becomes when it is flattened. */
  lemma MemberLeaf(style: Style, s: State, float: int -> real, m: Field, l: Leaf)
    requires style.listKey == TAGS && IsMember(s, float, m) && l in FieldLeaves(style, m)
    ensures l.TextLeaf? ==> exists f :: l == TextLeaf(TextKey(f), s.text(f))
    ensures l.IntLeaf? ==> exists f :: s.number(f) != 0 && l == IntLeaf(NumberKey(f), Truncate(float(s.number(f))))
    ensures l.FlagLeaf? ==> exists f :: s.flag(f) && l == FlagLeaf(FlagKey(f), true)
    ensures l.ListLeaf? ==> exists sub :: VisitsTags(sub, s.tags) && l == ListLeaf(TAGS, Entries(style, sub))
    ensures l.ListLeaf? ==> s.tags != map[]
  {
    hide TextKey, NumberKey, FlagKey;
  }

  /** The options after filling a saved state into empty ones. */
  function Refilled(style: Style, fields: seq<Field>): (r: Options) {
    FillGaps(Leaves(style, fields), NoOptions)
  }

  /** A slot is filled exactly by leaves of members. */
  lemma SlotOrigin(style: Style, fields: seq<Field>, l: Leaf)
    ensures l in Leaves(style, fields) ==> Taken(l, Refilled(style, fields))
    ensures Taken(l, Refilled(style, fields)) ==>
              exists m :: m in fields && Current(l, Refilled(style, fields)) in FieldLeaves(style, m)
  {
    var o := Refilled(style, fields);
    FillMeets(Leaves(style, fields), NoOptions, l);
    if Taken(l, o) {
      LeafOrigin(style, fields, Current(l, o));
    }
  }

  /** Only a text field's own value can be found under any of its names. */
  lemma TextSlot(style: Style, s: State, fields: seq<Field>, float: int -> real, f: TextField, i: nat)
    requires style.listKey == TAGS && Visits(fields, s, float)
    requires i < |TextAliases(f)| && TextAliases(f)[i] in Refilled(style, fields).strings
    ensures TextAliases(f)[i] == TextKey(f) && Refilled(style, fields).strings[TextKey(f)] == s.text(f)
  {
    hide TextKey, TextAliases, FlagName, Refilled, FieldLeaves, IsMember;
    var o := Refilled(style, fields);
    var l := TextLeaf(TextAliases(f)[i], "");
    SlotOrigin(style, fields, l);
    var m :| m in fields && Current(l, o) in FieldLeaves(style, m);
    MemberLeaf(style, s, float, m, Current(l, o));
    var g :| Current(l, o) == TextLeaf(TextKey(g), s.text(g));
    TextAliasesAreOwn(f, g, i);
  }

  lemma TextIsFilled(style: Style, s: State, fields: seq<Field>, float: int -> real, f: TextField)
    requires style.listKey == TAGS && Visits(fields, s, float) && s.text(f) != ""
    ensures TextKey(f) in Refilled(style, fields).strings
  {
    hide TextKey, Refilled, IsMember;
    var m := Field(TextKey(f), Text(s.text(f)));
    LeafOrigin(style, fields, TextLeaf(TextKey(f), s.text(f)));
    assert TextLeaf(TextKey(f), s.text(f)) in FieldLeaves(style, m);
    SlotOrigin(style, fields, TextLeaf(TextKey(f), s.text(f)));
  }

  lemma TextComesBack(style: Style, s: State, fields: seq<Field>, float: int -> real, f: TextField)
    requires style.listKey == TAGS && Visits(fields, s, float) && f != AgentDNSPrefix
    ensures StateFromOptions(Refilled(style, fields)).text(f) == s.text(f)
  {
    hide TextKey, TextAliases, FlagName, Refilled, Visits;
    var o := Refilled(style, fields);
    forall i | 0 <= i < |TextAliases(f)| && TextAliases(f)[i] in o.strings
      ensures TextAliases(f)[i] == TextKey(f) && o.strings[TextKey(f)] == s.text(f)
    {
      TextSlot(style, s, fields, float, f, i);
    }
    TextAliasesAreOwn(f, f, 0);
    if TextKey(f) in o.strings {
      var i :| 0 <= i < |TextAliases(f)| && TextAliases(f)[i] == TextKey(f);
      TextSlot(style, s, fields, float, f, i);
    }
    FirstOnly(o.strings, TextAliases(f), "", TextKey(f));
    if s.text(f) != "" {
      TextIsFilled(style, s, fields, float, f);
    }
  }

  lemma NumberAliasesAreOwn(f: NumberField, g: NumberField, i: nat)
    requires i < |NumberAliases(f)| && NumberAliases(f)[i] == NumberKey(g)
    ensures f == g
  {
  }

  lemma NumberComesBack(style: Style, s: State, fields: seq<Field>, float: int -> real, f: NumberField)
    requires style.listKey == TAGS && Visits(fields, s, float)
    ensures StateFromOptions(Refilled(style, fields)).number(f) == if s.number(f) == 0 then 0 else Truncate(float(s.number(f)))
  {
    hide NumberKey, NumberAliases;
    var o := Refilled(style, fields);
    var back := Truncate(float(s.number(f)));
    forall i | 0 <= i < |NumberAliases(f)| && NumberAliases(f)[i] in o.ints
      ensures NumberAliases(f)[i] == NumberKey(f) && s.number(f) != 0 && o.ints[NumberKey(f)] == back
    {
      var l := IntLeaf(NumberAliases(f)[i], 0);
      SlotOrigin(style, fields, l);
      var m :| m in fields && Current(l, o) in FieldLeaves(style, m);
      MemberLeaf(style, s, float, m, Current(l, o));
      var g :| s.number(g) != 0 && Current(l, o) == IntLeaf(NumberKey(g), Truncate(float(s.number(g))));
      NumberAliasesAreOwn(f, g, i);
    }
    OwnNumberKey(f);
    FirstOnly(o.ints, NumberAliases(f), 0, NumberKey(f));
    if s.number(f) != 0 {
      var m := Field(NumberKey(f), Number(float(s.number(f))));
      LeafOrigin(style, fields, IntLeaf(NumberKey(f), back));
      assert IntLeaf(NumberKey(f), back) in FieldLeaves(style, m);
      SlotOrigin(style, fields, IntLeaf(NumberKey(f), back));
    }
  }

  lemma OwnNumberKey(f: NumberField)
    ensures NumberKey(f) in NumberAliases(f)
  {
    assert NumberAliases(f)[if f.AgentCount? then 0 else 1] == NumberKey(f);
  }

  lemma FlagAliasesAreOwn(f: FlagField, g: FlagField, i: nat)
    requires i < |FlagAliases(f)| && FlagAliases(f)[i] == FlagKey(g)
    ensures f == g
  {
  }

  lemma FlagComesBack(style: Style, s: State, fields: seq<Field>, float: int -> real, f: FlagField)
    requires style.listKey == TAGS && Visits(fields, s, float)
    ensures StateFromOptions(Refilled(style, fields)).flag(f) == s.flag(f)
  {
    hide FlagKey, FlagAliases;
    var o := Refilled(style, fields);
    forall i | 0 <= i < |FlagAliases(f)| && FlagAliases(f)[i] in o.bools
      ensures FlagAliases(f)[i] == FlagKey(f) && s.flag(f) && o.bools[FlagKey(f)]
    {
      var l := FlagLeaf(FlagAliases(f)[i], true);
      SlotOrigin(style, fields, l);
      var m :| m in fields && Current(l, o) in FieldLeaves(style, m);
      MemberLeaf(style, s, float, m, Current(l, o));
      var g :| s.flag(g) && Current(l, o) == FlagLeaf(FlagKey(g), true);
      FlagAliasesAreOwn(f, g, i);
    }
    OwnFlagKey(f);
    FirstOnly(o.bools, FlagAliases(f), false, FlagKey(f));
    if s.flag(f) {
      LeafOrigin(style, fields, FlagLeaf(FlagKey(f), true));
      assert FlagLeaf(FlagKey(f), true) in FieldLeaves(style, Field(FlagKey(f), Flag(true)));
      SlotOrigin(style, fields, FlagLeaf(FlagKey(f), true));
    }
  }

  lemma OwnFlagKey(f: FlagField)
    ensures FlagKey(f) in FlagAliases(f)
  {
    assert FlagAliases(f)[1] == FlagKey(f);
  }

  lemma TagsComeBack(style: Style, s: State, fields: seq<Field>, float: int -> real)
    requires style.listKey == TAGS && PrintsText(style.show) && Visits(fields, s, float)
    ensures Labels.Parse(First(Refilled(style, fields).lists, [TAGS], [])) == Labels.Splittables(s.tags)
  {
    hide IsMember;
    var o := Refilled(style, fields);
    var l := ListLeaf(TAGS, []);
    SlotOrigin(style, fields, l);
    assert First(o.lists, [TAGS], []) == if TAGS in o.lists then o.lists[TAGS] else [] by { assert [TAGS][1..] == []; }
    if Taken(l, o) {
      var m :| m in fields && Current(l, o) in FieldLeaves(style, m);
      MemberLeaf(style, s, float, m, Current(l, o));
      var sub :| VisitsTags(sub, s.tags) && Current(l, o) == ListLeaf(TAGS, Entries(style, sub));
      TagEntries(style, sub, s.tags);
      Labels.LabelRoundTrip(s.tags, KeysOf(sub));
    } else if s.tags != map[] {
      TagsPresent(style, s, fields, float);
    }
  }

  lemma TagsPresent(style: Style, s: State, fields: seq<Field>, float: int -> real)
    requires style.listKey == TAGS && Visits(fields, s, float) && s.tags != map[]
    ensures TAGS in Refilled(style, fields).lists
  {
    var m :| m in fields && m.key == TAGS;
    TagsMember(s, float, m);
    var t := ListLeaf(TAGS, Entries(style, m.value.fields));
    LeafOrigin(style, fields, t);
    SlotOrigin(style, fields, t);
  }

  /** Only the tags are written under their key. */
  lemma TagsMember(s: State, float: int -> real, m: Field)
    requires IsMember(s, float, m) && m.key == TAGS
    ensures m.value.Object? && VisitsTags(m.value.fields, s.tags)
  {
  }

  lemma TagEntries(style: Style, sub: seq<Field>, tags: map<string, string>)
    requires VisitsTags(sub, tags) && PrintsText(style.show)
    ensures Entries(style, sub) == Labels.EntriesOf(tags, KeysOf(sub))
  {
    forall i | 0 <= i < |sub| ensures Entry(style, sub[i]) == Labels.EntryOf(KeysOf(sub)[i], tags[KeysOf(sub)[i]]) {
      assert KeysOf(sub)[i] in tags.Keys;
      assert sub[i] in sub;
    }
  }

  /** Marshalling a state, filling empty options from any visit of it and reading them back gives
      the state, up to the agent DNS prefix: exactly when its non-zero numbers survive float64 and
      no tag holds '='. */
  lemma StateRoundTrip(style: Style, s: State, fields: seq<Field>, float: int -> real)
    requires style.listKey == TAGS && PrintsText(style.show) && Visits(fields, s, float)
    ensures SameButDnsPrefix(StateFromOptions(Refilled(style, fields)), s)
       <==> && (forall f :: s.number(f) != 0 ==> Truncate(float(s.number(f))) == s.number(f))
            && (forall k :: k in s.tags ==> Labels.Splittable(k, s.tags[k]))
  {
    hide TextKey, TextAliases, NumberKey, NumberAliases, FlagKey, FlagAliases, Visits;
    var back := StateFromOptions(Refilled(style, fields));
    forall f: TextField | f != AgentDNSPrefix ensures back.text(f) == s.text(f) {
      TextComesBack(style, s, fields, float, f);
    }
    forall f: NumberField ensures back.number(f) == if s.number(f) == 0 then 0 else Truncate(float(s.number(f))) {
      NumberComesBack(style, s, fields, float, f);
    }
    forall f: FlagField ensures back.flag(f) == s.flag(f) {
      FlagComesBack(style, s, fields, float, f);
    }
    TagsComeBack(style, s, fields, float);
    if Labels.Splittables(s.tags) == s.tags {
      forall k | k in s.tags ensures Labels.Splittable(k, s.tags[k]) {
        assert k in Labels.Splittables(s.tags);
      }
    }
  }

  // ---------------------------------------------------------------- which name decides

  lemma FirstOfOne<T>(options: map<string, T>, a: string, zero: T)
    ensures First(options, [a], zero) == if a in options then options[a] else zero
  {
    assert [a][1..] == [];
  }

  lemma FirstOfMore<T>(options: map<string, T>, a: string, rest: seq<string>, zero: T)
    ensures First(options, [a] + rest, zero) == if a in options then options[a] else First(options, rest, zero)
  {
    assert ([a] + rest)[1..] == rest;
  }

  lemma FirstOfTwo<T>(options: map<string, T>, a: string, b: string, zero: T)
    ensures First(options, [a, b], zero) == if a in options then options[a] else if b in options then options[b] else zero
  {
    assert [a, b] == [a] + [b];
    FirstOfMore(options, a, [b], zero);
    FirstOfOne(options, b, zero);
  }

  lemma FirstOfFour<T>(options: map<string, T>, a: string, b: string, c: string, d: string, zero: T)
    ensures First(options, [a, b, c, d], zero) ==
            if a in options then options[a] else if b in options then options[b]
            else if c in options then options[c] else if d in options then options[d] else zero
  {
    assert [a, b, c, d] == [a] + [b, c, d] && [b, c, d] == [b] + [c, d];
    FirstOfMore(options, a, [b, c, d], zero);
    FirstOfMore(options, b, [c, d], zero);
    FirstOfTwo(options, c, d, zero);
  }

  /** An option under a field's command-line name decides the field, whatever stands under its JSON
      key; only without it does the key decide.  The agent DNS prefix is never read. */
  lemma TextByPriority(o: Options, f: TextField)
    requires f != LinuxSSHPublicKeyContents
    ensures StateFromOptions(o).text(f) ==
            if f == AgentDNSPrefix then ""
            else if FlagName(f) in o.strings then o.strings[FlagName(f)]
            else if TextKey(f) in o.strings then o.strings[TextKey(f)]
            else ""
  {
    SameNameFields(f);
    hide FlagName, TextKey, First;
    FirstOfOne(o.strings, TextKey(f), "");
    FirstOfTwo(o.strings, FlagName(f), TextKey(f), "");
    NoNames(o.strings);
  }

  /** So it is for the ssh key, with two older names after that. */
  lemma SshKeyByPriority(o: Options)
    ensures StateFromOptions(o).text(LinuxSSHPublicKeyContents) ==
            if "ssh-public-key-contents" in o.strings then o.strings["ssh-public-key-contents"]
            else if "sshPublicKeyContents" in o.strings then o.strings["sshPublicKeyContents"]
            else if "public-key-contents" in o.strings then o.strings["public-key-contents"]
            else if "publicKeyContents" in o.strings then o.strings["publicKeyContents"]
            else ""
  {
    assert FlagName(LinuxSSHPublicKeyContents) == "ssh-public-key-contents";
    assert TextKey(LinuxSSHPublicKeyContents) == "sshPublicKeyContents";
    hide FlagName, TextKey, First;
    FirstOfFour(o.strings, "ssh-public-key-contents", "sshPublicKeyContents", "public-key-contents", "publicKeyContents", "");
  }

  lemma NoNames(options: map<string, string>)
    ensures First(options, [], "") == ""
  {
  }

  lemma SameNameFields(f: TextField)
    ensures f == AgentDNSPrefix || f == Name || f == Subnet || f == TextField.Location ==> FlagName(f) == TextKey(f)
  {
    hide TextKey;
  }

  lemma NumbersByPriority(o: Options)
    ensures var s := StateFromOptions(o);
            && s.number(AgentCount) == (if "count" in o.ints then o.ints["count"] else 0)
            && s.number(AgentMaxPods) == (if "max-pods" in o.ints then o.ints["max-pods"]
                                          else if "maxPods" in o.ints then o.ints["maxPods"] else 0)
            && s.number(AgentOsdiskSizeGB) == (if "agent-osdisk-size" in o.ints then o.ints["agent-osdisk-size"]
                                               else if "agentOsdiskSize" in o.ints then o.ints["agentOsdiskSize"]
                                               else if "os-disk-size" in o.ints then o.ints["os-disk-size"]
                                               else if "osDiskSizeGb" in o.ints then o.ints["osDiskSizeGb"] else 0)
  {
    hide First;
    FirstOfOne(o.ints, "count", 0);
    FirstOfTwo(o.ints, "max-pods", "maxPods", 0);
    FirstOfFour(o.ints, "agent-osdisk-size", "agentOsdiskSize", "os-disk-size", "osDiskSizeGb", 0);
  }

  lemma FlagsByPriority(o: Options)
    ensures var s := StateFromOptions(o);
            && s.flag(AddonEnableHTTPApplicationRouting) ==
                 (if "enable-http-application-routing" in o.bools then o.bools["enable-http-application-routing"]
                  else "enableHttpApplicationRouting" in o.bools && o.bools["enableHttpApplicationRouting"])
            && s.flag(AddonEnableMonitoring) ==
                 (if "enable-monitoring" in o.bools then o.bools["enable-monitoring"]
                  else "enableMonitoring" in o.bools && o.bools["enableMonitoring"])
  {
    hide First;
    FirstOfTwo(o.bools, "enable-http-application-routing", "enableHttpApplicationRouting", false);
    FirstOfTwo(o.bools, "enable-monitoring", "enableMonitoring", false);
  }

  /** In an update a Kubernetes version given by the configuration wins over the saved one. */
  lemma GivenVersionWins(style: Style, config: Options, name: string, metadata: map<string, string>, saved: Option<seq<Field>>)
    requires "kubernetes-version" in config.strings && "kubernetes-version" !in metadata
    ensures StateFromOptions(UpdateOptions(style, config, name, metadata, saved)).text(KubernetesVersion)
         == config.strings["kubernetes-version"]
  {
    hide StateFromOptions, UpdateOptions, SavedLayer;
    UpdatePriorities(style, config, name, metadata, saved);
    TextByPriority(UpdateOptions(style, config, name, metadata, saved), KubernetesVersion);
    assert FlagName(KubernetesVersion) == "kubernetes-version" && NAME != "kubernetes-version" by { assert |NAME| == 4; }
  }
}
