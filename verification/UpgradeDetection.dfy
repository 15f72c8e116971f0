/** Telling a configuration change from a mere change of schema: the k0s config that a Machine
    carries as an annotation against the one its control plane asks for. */
module UpgradeDetection {
  import opened Prelude
  import opened Json

  // ---- the two schemas ------------------------------------------------------------------------------
  // A list field is None when it is nil and Some([]) when it is explicitly empty. Sub-objects that
  // no code here looks into are kept as JSON values.

  datatype Tunneling = Tunneling(enabled: bool, serverAddress: string, serverNodePort: int, tunnelingNodePort: int,
      mode: string)

  datatype SpecV1 = SpecV1(
    ignition: Option<Json>, k0sInstallDir: string, k0s: Option<Json>, files: Option<seq<Json>>,
    useSystemHostname: bool, args: Option<seq<Json>>, preStartCommands: Option<seq<Json>>,
    postStartCommands: Option<seq<Json>>, preInstalledK0s: bool, downloadURL: string,
    tunneling: Tunneling, customUserDataRef: Option<Json>, workingDir: string)

  datatype Provisioner = Provisioner(kind: string, platform: string, ignition: Option<Json>,
      customUserDataRef: Option<Json>)

  datatype SpecV2 = SpecV2(
    provisioner: Provisioner, k0sInstallDir: string, k0s: Option<Json>, files: Option<seq<Json>>,
    useSystemHostname: bool, args: Option<seq<Json>>, preK0sCommands: Option<seq<Json>>,
    postK0sCommands: Option<seq<Json>>, preInstalledK0s: bool, downloadURL: string,
    tunneling: Tunneling, secretMetadata: Option<Json>, workingDir: string)

  const CLOUD_INIT: string := "cloud-config"
  const IGNITION: string := "ignition"
  const LINUX: string := "linux"

  // ---- conversion ------------------------------------------------------------------------------------

  function ToV2(s: SpecV1): SpecV2 {
    var plain := Provisioner(CLOUD_INIT, LINUX, None, None);
    var chosen := if s.ignition.Some? then Provisioner(IGNITION, LINUX, s.ignition, None) else plain;
    var provisioner := if s.customUserDataRef.Some? then chosen.(customUserDataRef := s.customUserDataRef) else chosen;
    SpecV2(provisioner, s.k0sInstallDir, s.k0s, s.files, s.useSystemHostname, s.args, s.preStartCommands,
           s.postStartCommands, s.preInstalledK0s, s.downloadURL, s.tunneling, None, s.workingDir)
  }

  function ToV1(t: SpecV2): SpecV1 {
    SpecV1(if t.provisioner.kind == IGNITION then t.provisioner.ignition else None,
           t.k0sInstallDir, t.k0s, t.files, t.useSystemHostname, t.args, t.preK0sCommands, t.postK0sCommands,
           t.preInstalledK0s, t.downloadURL, t.tunneling, t.provisioner.customUserDataRef, t.workingDir)
  }

  /** Nothing of the old schema is lost by conversion; of the new one, exactly what the old schema
      has no place for. */
  lemma ConversionRoundTrip(s: SpecV1, t: SpecV2)
    ensures ToV1(ToV2(s)) == s
    ensures ToV2(ToV1(t)) == t <==>
              && t.secretMetadata.None? && t.provisioner.platform == LINUX
              && t.provisioner.kind == (if t.provisioner.ignition.Some? then IGNITION else CLOUD_INIT)
  {
    assert CLOUD_INIT[0] != IGNITION[0];
  }

  // ---- JSON -----------------------------------------------------------------------------------------

  /** The member names of the two schemas and their sub-objects, as in their json tags. */
  datatype Name =
    | TunnelingKey | K0sInstallDirKey | K0sKey | FilesKey | UseSystemHostnameKey | ArgsKey | PreInstalledK0sKey
        | DownloadURLKey | WorkingDirKey
    | PreStartCommandsKey | PostStartCommandsKey | IgnitionKey | CustomUserDataRefKey | ProvisionerKey
        | PreK0sCommandsKey | PostK0sCommandsKey | SecretMetadataKey
    | EnabledKey | ServerAddressKey | ServerNodePortKey | TunnelingNodePortKey | ModeKey | TypeKey | PlatformKey

  /** The json tag of a member. */
  function Tag(n: Name): string {
    match n
    case TunnelingKey => "tunneling"
    case K0sInstallDirKey => "k0sInstallDir"
    case K0sKey => "k0s"
    case FilesKey => "files"
    case UseSystemHostnameKey => "useSystemHostname"
    case ArgsKey => "args"
    case PreInstalledK0sKey => "preInstalledK0s"
    case DownloadURLKey => "downloadURL"
    case WorkingDirKey => "workingDir"
    case PreStartCommandsKey => "preStartCommands"
    case PostStartCommandsKey => "postStartCommands"
    case IgnitionKey => "ignition"
    case CustomUserDataRefKey => "customUserDataRef"
    case ProvisionerKey => "provisioner"
    case PreK0sCommandsKey => "preK0sCommands"
    case PostK0sCommandsKey => "postK0sCommands"
    case SecretMetadataKey => "secretMetadata"
    case EnabledKey => "enabled"
    case ServerAddressKey => "serverAddress"
    case ServerNodePortKey => "serverNodePort"
    case TunnelingNodePortKey => "tunnelingNodePort"
    case ModeKey => "mode"
    case TypeKey => "type"
    case PlatformKey => "platform"
  }

  /** What tells the tags apart: length, first and third character. */
  function TagMark(n: Name): (int, char, char) {
    match n
    case TunnelingKey => (9, 't', 'n')
    case K0sInstallDirKey => (13, 'k', 's')
    case K0sKey => (3, 'k', 's')
    case FilesKey => (5, 'f', 'l')
    case UseSystemHostnameKey => (17, 'u', 'e')
    case ArgsKey => (4, 'a', 'g')
    case PreInstalledK0sKey => (15, 'p', 'e')
    case DownloadURLKey => (11, 'd', 'w')
    case WorkingDirKey => (10, 'w', 'r')
    case PreStartCommandsKey => (16, 'p', 'e')
    case PostStartCommandsKey => (17, 'p', 's')
    case IgnitionKey => (8, 'i', 'n')
    case CustomUserDataRefKey => (17, 'c', 's')
    case ProvisionerKey => (11, 'p', 'o')
    case PreK0sCommandsKey => (14, 'p', 'e')
    case PostK0sCommandsKey => (15, 'p', 's')
    case SecretMetadataKey => (14, 's', 'c')
    case EnabledKey => (7, 'e', 'a')
    case ServerAddressKey => (13, 's', 'r')
    case ServerNodePortKey => (14, 's', 'r')
    case TunnelingNodePortKey => (17, 't', 'n')
    case ModeKey => (4, 'm', 'd')
    case TypeKey => (4, 't', 'p')
    case PlatformKey => (8, 'p', 'a')
  }

  lemma TagHasMark(n: Name)
    ensures |Tag(n)| > 2 && (|Tag(n)|, Tag(n)[0], Tag(n)[2]) == TagMark(n)
  {
  }

  /** No two members share a tag, so that objects can be keyed by member. */
  lemma TagsDiffer(a: Name, b: Name)
    requires Tag(a) == Tag(b)
    ensures a == b
  {
    TagHasMark(a);
    TagHasMark(b);
    MarksDiffer(a, b);
  }

  lemma MarksDiffer(a: Name, b: Name)
    requires TagMark(a) == TagMark(b)
    ensures a == b
  {
  }

  /** A JSON object of these schemas by member name. */
  type Members = map<Name, Member>
  datatype Member = MStr(s: string) | MBool(b: bool) | MInt(i: int) | MList(items: seq<Json>) | MRef(j: Json)
      | MObj(fields: Members)

  // Struct fields are always written, others only when set.
  function StrMember(s: string): Option<Member> { if s == "" then None else Some(MStr(s)) }
  function BoolMember(b: bool): Option<Member> { if b then Some(MBool(true)) else None }
  function IntMember(i: int): Option<Member> { if i == 0 then None else Some(MInt(i)) }
  function ListMember(xs: Option<seq<Json>>): Option<Member> {
    if xs.None? || xs.value == [] then None else Some(MList(xs.value))
  }
  function RefMember(j: Option<Json>): Option<Member> { if j.None? then None else Some(MRef(j.value)) }

  /** Lists as they come back from a text that omits empty ones. */
  function Omit(xs: Option<seq<Json>>): Option<seq<Json>> { if xs == Some([]) then None else xs }

  function GetStr(m: Members, k: Name): string { if k in m && m[k].MStr? then m[k].s else "" }
  function GetBool(m: Members, k: Name): bool { k in m && m[k] == MBool(true) }
  function GetInt(m: Members, k: Name): int { if k in m && m[k].MInt? then m[k].i else 0 }
  function GetList(m: Members, k: Name): Option<seq<Json>> { if k in m && m[k].MList? then Some(m[k].items) else None }
  function GetRef(m: Members, k: Name): Option<Json> {
    if k in m && m[k].MRef? && !m[k].j.Null? then Some(m[k].j) else None
  }
  function GetObj(m: Members, k: Name): Members { if k in m && m[k].MObj? then m[k].fields else map[] }

  function TunnelingMember(t: Tunneling, k: Name): Option<Member> {
    match k
    case EnabledKey => BoolMember(t.enabled)
    case ServerAddressKey => StrMember(t.serverAddress)
    case ServerNodePortKey => IntMember(t.serverNodePort)
    case TunnelingNodePortKey => IntMember(t.tunnelingNodePort)
    case ModeKey => StrMember(t.mode)
    case _ => None
  }

  function TunnelingJson(t: Tunneling): Members {
    map k: Name | TunnelingMember(t, k).Some? :: TunnelingMember(t, k).value
  }

  function TunnelingOf(m: Members): Tunneling {
    Tunneling(GetBool(m, EnabledKey), GetStr(m, ServerAddressKey), GetInt(m, ServerNodePortKey),
              GetInt(m, TunnelingNodePortKey), GetStr(m, ModeKey))
  }

  /** The members both schemas write the same way. */
  function CommonMember(t: SpecV2, k: Name): Option<Member> {
    match k
    case TunnelingKey => Some(MObj(TunnelingJson(t.tunneling)))
    case K0sInstallDirKey => StrMember(t.k0sInstallDir)
    case K0sKey => RefMember(t.k0s)
    case FilesKey => ListMember(t.files)
    case UseSystemHostnameKey => BoolMember(t.useSystemHostname)
    case ArgsKey => ListMember(t.args)
    case PreInstalledK0sKey => BoolMember(t.preInstalledK0s)
    case DownloadURLKey => StrMember(t.downloadURL)
    case WorkingDirKey => StrMember(t.workingDir)
    case _ => None
  }

  function MemberV1(s: SpecV1, k: Name): Option<Member> {
    match k
    case PreStartCommandsKey => ListMember(s.preStartCommands)
    case PostStartCommandsKey => ListMember(s.postStartCommands)
    case IgnitionKey => RefMember(s.ignition)
    case CustomUserDataRefKey => RefMember(s.customUserDataRef)
    case _ => CommonMember(ToV2(s), k)
  }

  /** json.Marshal of the old schema. */
  function JsonV1(s: SpecV1): Members { map k: Name | MemberV1(s, k).Some? :: MemberV1(s, k).value }

  function ProvisionerMember(p: Provisioner, k: Name): Option<Member> {
    match k
    case TypeKey => StrMember(p.kind)
    case PlatformKey => StrMember(p.platform)
    case IgnitionKey => RefMember(p.ignition)
    case CustomUserDataRefKey => RefMember(p.customUserDataRef)
    case _ => None
  }

  function ProvisionerJson(p: Provisioner): Members {
    map k: Name | ProvisionerMember(p, k).Some? :: ProvisionerMember(p, k).value
  }

  function MemberV2(t: SpecV2, k: Name): Option<Member> {
    match k
    case ProvisionerKey => Some(MObj(ProvisionerJson(t.provisioner)))
    case PreK0sCommandsKey => ListMember(t.preK0sCommands)
    case PostK0sCommandsKey => ListMember(t.postK0sCommands)
    case SecretMetadataKey => RefMember(t.secretMetadata)
    case _ => CommonMember(t, k)
  }

  /** json.Marshal of the current schema. */
  function JsonV2(t: SpecV2): Members { map k: Name | MemberV2(t, k).Some? :: MemberV2(t, k).value }

  function SpecV1Of(m: Members): SpecV1 {
    SpecV1(GetRef(m, IgnitionKey), GetStr(m, K0sInstallDirKey), GetRef(m, K0sKey), GetList(m, FilesKey),
           GetBool(m, UseSystemHostnameKey), GetList(m, ArgsKey), GetList(m, PreStartCommandsKey),
               GetList(m, PostStartCommandsKey),
           GetBool(m, PreInstalledK0sKey), GetStr(m, DownloadURLKey), TunnelingOf(GetObj(m, TunnelingKey)),
           GetRef(m, CustomUserDataRefKey), GetStr(m, WorkingDirKey))
  }

  function SpecV2Of(m: Members): SpecV2 {
    var p := GetObj(m, ProvisionerKey);
    SpecV2(Provisioner(GetStr(p, TypeKey), GetStr(p, PlatformKey), GetRef(p, IgnitionKey),
        GetRef(p, CustomUserDataRefKey)),
           GetStr(m, K0sInstallDirKey), GetRef(m, K0sKey), GetList(m, FilesKey), GetBool(m, UseSystemHostnameKey),
           GetList(m, ArgsKey), GetList(m, PreK0sCommandsKey), GetList(m, PostK0sCommandsKey),
               GetBool(m, PreInstalledK0sKey),
           GetStr(m, DownloadURLKey), TunnelingOf(GetObj(m, TunnelingKey)), GetRef(m, SecretMetadataKey),
               GetStr(m, WorkingDirKey))
  }

  // ---- internal/controller/controlplane/helper.go ---------------------------------------------------

  datatype ConfigError = NoAnnotation | Malformed

  /** The annotation of a Machine: absent, not a JSON object of either schema, or one. */
  datatype Annotation = Absent | Garbled | Present(members: Members)

  /** `getMachineK0sConfig`. */
  function GetMachineK0sConfig(annotation: Annotation): Result<SpecV2, ConfigError> {
    if annotation.Absent? then Err(NoAnnotation)
    else if annotation.Garbled? then Err(Malformed)
    else
      var m := annotation.members;
      if ProvisionerKey !in m then Ok(ToV2(SpecV1Of(m))) else Ok(SpecV2Of(m))
  }

  function OrStr(s: string, d: string): string { if s == "" then d else s }
  function OrInt(i: int, d: int): int { if i == 0 then d else i }

  /** `withV1Beta2Defaults`. */
  function WithDefaults(t: SpecV2): SpecV2 {
    ApiDefaults(t).(downloadURL := OrStr(t.downloadURL, "https://get.k0s.sh"))
  }

  /** The defaults the API server itself fills in; the download URL has none there. */
  function ApiDefaults(t: SpecV2): SpecV2 {
    t.(k0sInstallDir := OrStr(t.k0sInstallDir, "/usr/local/bin"),
       provisioner := t.provisioner.(kind := OrStr(t.provisioner.kind, CLOUD_INIT),
           platform := OrStr(t.provisioner.platform, LINUX)),
       tunneling := t.tunneling.(serverNodePort := OrInt(t.tunneling.serverNodePort, 31700),
                                 tunnelingNodePort := OrInt(t.tunneling.tunnelingNodePort, 31443),
                                 mode := OrStr(t.tunneling.mode, "tunnel")))
  }

  /** What is compared of a spec. */
  function Compared(t: SpecV2): SpecV2 { WithDefaults(t.(k0s := None)) }

  /** `isBootstrapConfigUpToDate`, for an existing Machine. `deprecatedChanged` is the verdict of the
      comparison kept for Machines without the annotation. */
  predicate IsUpToDate(haveConfig: bool, kcp: SpecV2, annotation: Annotation, deprecatedChanged: bool) {
    if !haveConfig then true
    else match GetMachineK0sConfig(annotation)
      case Err(NoAnnotation) => !deprecatedChanged
      case Err(Malformed) => false
      case Ok(t) => Compared(kcp) == Compared(t)
  }

  // ---- no needless rollout -----------------------------------------------------------------------------

  /** A spec as it comes back from its own text. */
  function Reread(t: SpecV2): SpecV2 {
    t.(files := Omit(t.files), args := Omit(t.args), preK0sCommands := Omit(t.preK0sCommands),
        postK0sCommands := Omit(t.postK0sCommands))
  }

  predicate NoEmptyLists(t: SpecV2) {
    t.files != Some([]) && t.args != Some([]) && t.preK0sCommands != Some([]) && t.postK0sCommands != Some([])
  }

  /** References are never to a JSON null. */
  predicate ProperRefs(t: SpecV2) {
    && t.k0s != Some(Null) && t.secretMetadata != Some(Null)
    && t.provisioner.ignition != Some(Null) && t.provisioner.customUserDataRef != Some(Null)
  }

  lemma DefaultsIdempotent(t: SpecV2)
    ensures WithDefaults(WithDefaults(t)) == WithDefaults(t)
    ensures WithDefaults(ApiDefaults(t)) == WithDefaults(t)
    ensures Compared(t) == Compared(ApiDefaults(t)) == Compared(WithDefaults(t))
  {
  }

  lemma TunnelingRoundTrip(t: Tunneling)
    ensures TunnelingOf(TunnelingJson(t)) == t
  {
  }

  lemma ProvisionerRoundTrip(p: Provisioner, m: Members)
    requires p.ignition != Some(Null) && p.customUserDataRef != Some(Null) && m == ProvisionerJson(p)
    ensures Provisioner(GetStr(m, TypeKey), GetStr(m, PlatformKey), GetRef(m, IgnitionKey),
            GetRef(m, CustomUserDataRefKey)) == p
  {
  }

  /** The tag that decides which schema an annotation is read by. */
  ghost predicate HasTag(m: Members, tag: string) { exists k :: k in m && Tag(k) == tag }

  lemma MemberChoice(s: SpecV1, t: SpecV2)
    ensures ProvisionerKey !in JsonV1(s) && ProvisionerKey in JsonV2(t)
  {
    assert MemberV1(s, ProvisionerKey).None? && MemberV2(t, ProvisionerKey).Some?;
  }

  /** The two schemas cannot be mistaken for one another: only the new one has a provisioner. */
  lemma DecoderChoice(s: SpecV1, t: SpecV2)
    ensures !HasTag(JsonV1(s), "provisioner") && HasTag(JsonV2(t), "provisioner")
  {
    MemberChoice(s, t);
    assert Tag(ProvisionerKey) == "provisioner";
    forall k | k in JsonV1(s) ensures Tag(k) != Tag(ProvisionerKey) {
      if Tag(k) == Tag(ProvisionerKey) { TagsDiffer(k, ProvisionerKey); }
    }
  }

  /** The object has at this name what was meant for it. */
  predicate Holds(m: Members, k: Name, o: Option<Member>) { if o.None? then k !in m else k in m && m[k] == o.value }

  lemma ReadStr(m: Members, k: Name, s: string)
    requires Holds(m, k, StrMember(s))
    ensures GetStr(m, k) == s
  {
  }

  lemma ReadBool(m: Members, k: Name, b: bool)
    requires Holds(m, k, BoolMember(b))
    ensures GetBool(m, k) == b
  {
  }

  lemma ReadList(m: Members, k: Name, xs: Option<seq<Json>>)
    requires Holds(m, k, ListMember(xs))
    ensures GetList(m, k) == Omit(xs)
  {
  }

  lemma ReadRef(m: Members, k: Name, j: Option<Json>)
    requires Holds(m, k, RefMember(j)) && j != Some(Null)
    ensures GetRef(m, k) == j
  {
  }

  /** The shared members read back. */
  predicate HoldsCommon(m: Members, t: SpecV2) {
    && GetStr(m, K0sInstallDirKey) == t.k0sInstallDir && GetRef(m, K0sKey) == t.k0s
       && GetList(m, FilesKey) == Omit(t.files)
    && GetBool(m, UseSystemHostnameKey) == t.useSystemHostname && GetList(m, ArgsKey) == Omit(t.args)
    && GetBool(m, PreInstalledK0sKey) == t.preInstalledK0s && GetStr(m, DownloadURLKey) == t.downloadURL
    && TunnelingOf(GetObj(m, TunnelingKey)) == t.tunneling && GetStr(m, WorkingDirKey) == t.workingDir
  }

  lemma CommonRoundTrip(m: Members, t: SpecV2)
    requires t.k0s != Some(Null)
    requires Holds(m, TunnelingKey, Some(MObj(TunnelingJson(t.tunneling))))
    requires Holds(m, K0sInstallDirKey, StrMember(t.k0sInstallDir)) && Holds(m, K0sKey, RefMember(t.k0s))
    requires Holds(m, FilesKey, ListMember(t.files)) && Holds(m, UseSystemHostnameKey, BoolMember(t.useSystemHostname))
    requires Holds(m, ArgsKey, ListMember(t.args)) && Holds(m, PreInstalledK0sKey, BoolMember(t.preInstalledK0s))
    requires Holds(m, DownloadURLKey, StrMember(t.downloadURL)) && Holds(m, WorkingDirKey, StrMember(t.workingDir))
    ensures HoldsCommon(m, t)
  {
    TunnelingRoundTrip(t.tunneling);
    ReadStr(m, K0sInstallDirKey, t.k0sInstallDir);
    ReadRef(m, K0sKey, t.k0s);
    ReadList(m, FilesKey, t.files);
    ReadBool(m, UseSystemHostnameKey, t.useSystemHostname);
    ReadList(m, ArgsKey, t.args);
    ReadBool(m, PreInstalledK0sKey, t.preInstalledK0s);
    ReadStr(m, DownloadURLKey, t.downloadURL);
    ReadStr(m, WorkingDirKey, t.workingDir);
  }

  lemma V1Own(s: SpecV1)
    requires ProperRefs(ToV2(s))
    ensures var m := JsonV1(s);
            && GetRef(m, IgnitionKey) == s.ignition && GetRef(m, CustomUserDataRefKey) == s.customUserDataRef
            && GetList(m, PreStartCommandsKey) == Omit(s.preStartCommands)
               && GetList(m, PostStartCommandsKey) == Omit(s.postStartCommands)
  {
    var m := JsonV1(s);
    ReadRef(m, IgnitionKey, s.ignition);
    ReadRef(m, CustomUserDataRefKey, s.customUserDataRef);
    ReadList(m, PreStartCommandsKey, s.preStartCommands);
    ReadList(m, PostStartCommandsKey, s.postStartCommands);
  }

  lemma V2Own(t: SpecV2)
    requires ProperRefs(t)
    ensures var m := JsonV2(t);
            && GetObj(m, ProvisionerKey) == ProvisionerJson(t.provisioner)
               && GetRef(m, SecretMetadataKey) == t.secretMetadata
            && GetList(m, PreK0sCommandsKey) == Omit(t.preK0sCommands)
               && GetList(m, PostK0sCommandsKey) == Omit(t.postK0sCommands)
  {
    var m := JsonV2(t);
    assert Holds(m, ProvisionerKey, MemberV2(t, ProvisionerKey));
    ReadRef(m, SecretMetadataKey, t.secretMetadata);
    ReadList(m, PreK0sCommandsKey, t.preK0sCommands);
    ReadList(m, PostK0sCommandsKey, t.postK0sCommands);
  }

  lemma V1RoundTrip(s: SpecV1)
    requires ProperRefs(ToV2(s))
    ensures ToV2(SpecV1Of(JsonV1(s))) == Reread(ToV2(s))
  {
    V1Common(s);
    V1Own(s);
    V1Assembled(JsonV1(s), s);
  }

  lemma V1Common(s: SpecV1)
    requires ProperRefs(ToV2(s))
    ensures HoldsCommon(JsonV1(s), ToV2(s))
  {
    CommonRoundTrip(JsonV1(s), ToV2(s));
  }

  lemma V1Assembled(m: Members, s: SpecV1)
    requires HoldsCommon(m, ToV2(s))
    requires GetRef(m, IgnitionKey) == s.ignition && GetRef(m, CustomUserDataRefKey) == s.customUserDataRef
    requires GetList(m, PreStartCommandsKey) == Omit(s.preStartCommands)
             && GetList(m, PostStartCommandsKey) == Omit(s.postStartCommands)
    ensures ToV2(SpecV1Of(m)) == Reread(ToV2(s))
  {
  }

  lemma V2RoundTrip(t: SpecV2)
    requires ProperRefs(t)
    ensures SpecV2Of(JsonV2(t)) == Reread(t)
  {
    CommonRoundTrip(JsonV2(t), t);
    V2Own(t);
    ProvisionerRoundTrip(t.provisioner, ProvisionerJson(t.provisioner));
  }

  lemma ComparedReread(t: SpecV2)
    ensures Compared(Reread(t)) == Compared(t) <==> NoEmptyLists(t)
  {
  }

  /** A Machine that an old release annotated with its config is up to date against the converted
      and defaulted form of that same config, whatever the K0s block has become, exactly when no
      list of the config is explicitly empty. */
  lemma NoNeedlessRollout(s: SpecV1, k0s: Option<Json>, deprecatedChanged: bool)
    requires ProperRefs(ToV2(s))
    ensures IsUpToDate(true, ApiDefaults(ToV2(s)).(k0s := k0s), Present(JsonV1(s)), deprecatedChanged) <==>
            NoEmptyLists(ToV2(s))
  {
    MemberChoice(s, ToV2(s));
    V1RoundTrip(s);
    DefaultsIdempotent(ToV2(s));
    ComparedReread(ToV2(s));
  }

  /** For annotations of the current schema the verdict is equality up to defaults, the K0s block
      and explicitly empty lists of the annotated side. */
  lemma UpToDateIsEquality(kcp: SpecV2, t: SpecV2, deprecatedChanged: bool)
    requires ProperRefs(t)
    ensures IsUpToDate(true, kcp, Present(JsonV2(t)), deprecatedChanged) <==> Compared(kcp) == Compared(Reread(t))
    ensures NoEmptyLists(t) ==> (IsUpToDate(true, kcp, Present(JsonV2(t)), deprecatedChanged) <==>
            Compared(kcp) == Compared(t))
  {
    V2RoundTrip(t);
    ComparedReread(t);
  }

  /** The spec a is up to date for a Machine annotated with b. */
  predicate UpToDateWith(a: SpecV2, b: SpecV2) { IsUpToDate(true, a, Present(JsonV2(b)), false) }

  /** A spec as the API server may hold it: references to something, and no explicitly empty list. */
  predicate Regular(t: SpecV2) { ProperRefs(t) && NoEmptyLists(t) }

  /** Being up to date is an equivalence on such specs, and a spec with an explicitly empty list is
      not even up to date with itself. */
  lemma UpToDateIsEquivalence(a: SpecV2, b: SpecV2, c: SpecV2)
    requires Regular(a) && Regular(b) && Regular(c)
    ensures UpToDateWith(a, a)
    ensures UpToDateWith(a, b) ==> UpToDateWith(b, a)
    ensures UpToDateWith(a, b) && UpToDateWith(b, c) ==> UpToDateWith(a, c)
  {
    UpToDateIsEquality(a, a, false);
    UpToDateIsEquality(a, b, false);
    UpToDateIsEquality(b, a, false);
    UpToDateIsEquality(b, c, false);
    UpToDateIsEquality(a, c, false);
  }

  lemma ReflexiveIff(t: SpecV2)
    requires ProperRefs(t)
    ensures UpToDateWith(t, t) <==> NoEmptyLists(t)
  {
    UpToDateIsEquality(t, t, false);
    ComparedReread(t);
  }

  // ---- field by field --------------------------------------------------------------------------------

  /** The members of two specs that are compared after their defaults, and those compared as they are:
      everything but the K0s block. */
  predicate SameConfig(a: SpecV2, b: SpecV2) {
    && OrStr(a.downloadURL, "https://get.k0s.sh") == OrStr(b.downloadURL, "https://get.k0s.sh")
    && OrStr(a.k0sInstallDir, "/usr/local/bin") == OrStr(b.k0sInstallDir, "/usr/local/bin")
    && OrStr(a.provisioner.kind, "cloud-config") == OrStr(b.provisioner.kind, "cloud-config")
    && OrStr(a.provisioner.platform, "linux") == OrStr(b.provisioner.platform, "linux")
    && OrInt(a.tunneling.serverNodePort, 31700) == OrInt(b.tunneling.serverNodePort, 31700)
    && OrInt(a.tunneling.tunnelingNodePort, 31443) == OrInt(b.tunneling.tunnelingNodePort, 31443)
    && OrStr(a.tunneling.mode, "tunnel") == OrStr(b.tunneling.mode, "tunnel")
    && a.provisioner.ignition == b.provisioner.ignition
    && a.provisioner.customUserDataRef == b.provisioner.customUserDataRef
    && a.tunneling.enabled == b.tunneling.enabled && a.tunneling.serverAddress == b.tunneling.serverAddress
    && a.files == b.files && a.args == b.args && a.useSystemHostname == b.useSystemHostname
    && a.preK0sCommands == b.preK0sCommands && a.postK0sCommands == b.postK0sCommands
    && a.preInstalledK0s == b.preInstalledK0s && a.secretMetadata == b.secretMetadata && a.workingDir == b.workingDir
  }

  lemma ComparedFields(a: SpecV2, b: SpecV2)
    ensures Compared(a) == Compared(b) <==> SameConfig(a, b)
  {
  }

  /** The whole verdict: without a config to compare the Machine counts as up to date; without the
      annotation the older comparison decides; a garbled annotation is out of date; and one of the
      current schema is up to date exactly when all its members but the K0s block agree, those with
      defaults after them. */
  lemma VerdictTable(kcp: SpecV2, t: SpecV2, annotation: Annotation, deprecatedChanged: bool)
    requires Regular(t)
    ensures IsUpToDate(false, kcp, annotation, deprecatedChanged)
    ensures IsUpToDate(true, kcp, Absent, deprecatedChanged) <==> !deprecatedChanged
    ensures !IsUpToDate(true, kcp, Garbled, deprecatedChanged)
    ensures IsUpToDate(true, kcp, Present(JsonV2(t)), deprecatedChanged) <==> SameConfig(kcp, t)
  {
    UpToDateIsEquality(kcp, t, deprecatedChanged);
    ComparedFields(kcp, t);
  }

  /** And of the old schema, exactly when they agree with those of its converted form. */
  lemma OldVerdict(kcp: SpecV2, s: SpecV1, deprecatedChanged: bool)
    requires Regular(ToV2(s))
    ensures IsUpToDate(true, kcp, Present(JsonV1(s)), deprecatedChanged) <==> SameConfig(kcp, ToV2(s))
  {
    MemberChoice(s, ToV2(s));
    V1RoundTrip(s);
    RegularRereads(ToV2(s));
    ComparedFields(kcp, ToV2(s));
  }

  lemma RegularRereads(t: SpecV2)
    requires NoEmptyLists(t)
    ensures Reread(t) == t
  {
  }

  /** Where each member of a converted config comes from. */
  lemma ConvertedFields(s: SpecV1)
    ensures var t := ToV2(s);
            && t.k0sInstallDir == s.k0sInstallDir && t.k0s == s.k0s && t.files == s.files && t.args == s.args
            && t.useSystemHostname == s.useSystemHostname && t.preInstalledK0s == s.preInstalledK0s
            && t.preK0sCommands == s.preStartCommands && t.postK0sCommands == s.postStartCommands
            && t.downloadURL == s.downloadURL && t.tunneling == s.tunneling && t.workingDir == s.workingDir
            && t.secretMetadata == None && t.provisioner.platform == "linux"
            && t.provisioner.kind == (if s.ignition.Some? then "ignition" else "cloud-config")
            && t.provisioner.ignition == s.ignition && t.provisioner.customUserDataRef == s.customUserDataRef
  {
  }
}
