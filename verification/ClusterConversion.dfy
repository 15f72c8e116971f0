/** The Cluster conversion that keeps Service fields unknown to v1beta2 in annotations. */
module ClusterConversion {
  import opened Prelude
  import opened Json

  type Strings = map<string, string>

  datatype Slot = Labels | Annotations | TrafficPolicy | LoadBalancerClass

  /** Annotation names: the four of the conversion, and everybody else's. */
  datatype Name = Dropped(slot: Slot) | Other(name: string)

  /** An annotation value, by what a JSON decoder makes of its text. */
  datatype Text = Malformed | Of(json: Json)

  datatype Service = Service(core: Json, labels: Option<Strings>, annotations: Option<Strings>, policy: string,
      lbClass: Option<string>)

  /** v1beta1. Fields that the conversion only hands over are carried as JSON values; those that
      both versions share under one name as one of them. */
  datatype SpecV1 = SpecV1(shared: Json, service: Service, etcd: Json, kineUrl: string, kineSecret: string,
      kubeconfigRef: Option<Json>)

  datatype StorageType = Unset | Etcd | Kine | Nats

  datatype Storage = Storage(kind: StorageType, etcd: Json, kineUrl: string, kineSecret: string, nats: Json)

  datatype Remote = Remote(kubeconfigRef: Option<Json>)

  /** v1beta2. */
  datatype SpecV2 = SpecV2(shared: Json, service: Json, storage: Storage, remote: Option<Remote>, patches: seq<Json>)

  // ---- annotation values ----------------------------------------------------------------------

  function WriteMap(m: Strings): Text { Of(Obj(map k | k in m :: Str(m[k]))) }

  /** `json.Unmarshal` into a string: null leaves the empty string and anything else is an error,
      which reads as empty too. */
  function ReadString(annotations: map<Name, Text>, slot: Slot): string {
    if Dropped(slot) in annotations && annotations[Dropped(slot)].Of? && annotations[Dropped(slot)].json.Str?
    then annotations[Dropped(slot)].json.s else ""
  }

  function ReadMap(annotations: map<Name, Text>, slot: Slot): Option<Strings> {
    if Dropped(slot) in annotations && annotations[Dropped(slot)].Of? && annotations[Dropped(slot)].json.Obj?
       && (forall k :: k in annotations[Dropped(slot)].json.fields ==>
             var v := annotations[Dropped(slot)].json.fields[k]; v.Str? || v.Null?)
    then
      var fields := annotations[Dropped(slot)].json.fields;
      Some(map k | k in fields :: if fields[k].Str? then fields[k].s else "")
    else None
  }

  function ReadClass(annotations: map<Name, Text>): Option<string> {
    var s := ReadString(annotations, LoadBalancerClass);
    if s == "" then None else Some(s)
  }

  // ---- the conversion --------------------------------------------------------------------------

  /** A Service field that v1beta2 lacks, encoded if it is set. */
  function FieldText(s: Service, slot: Slot): Option<Text> {
    match slot
    case Labels => if s.labels.Some? then Some(WriteMap(s.labels.value)) else None
    case Annotations => if s.annotations.Some? then Some(WriteMap(s.annotations.value)) else None
    case TrafficPolicy => if s.policy != "" then Some(Of(Str(s.policy))) else None
    case LoadBalancerClass => if s.lbClass.Some? then Some(Of(Str(s.lbClass.value))) else None
  }

  function DroppedFields(s: Service): map<Name, Text> {
    map slot: Slot | FieldText(s, slot).Some? :: Dropped(slot) := FieldText(s, slot).value
  }

  function ToV2(spec: SpecV1): SpecV2 {
    var kine := spec.kineUrl != "" || spec.kineSecret != "";
    SpecV2(spec.shared, spec.service.core,
           if kine then Storage(Kine, spec.etcd, spec.kineUrl, spec.kineSecret, Null)
           else Storage(Etcd, spec.etcd, "", "", Null),
           if spec.kubeconfigRef.Some? then Some(Remote(spec.kubeconfigRef)) else None,
           [])
  }

  function FromV2(spec: SpecV2, annotations: map<Name, Text>): SpecV1 {
    var kine := spec.storage.kind == Kine;
    SpecV1(spec.shared,
           Service(spec.service, ReadMap(annotations, Labels), ReadMap(annotations, Annotations),
                   ReadString(annotations, TrafficPolicy), ReadClass(annotations)),
           spec.storage.etcd,
           if kine then spec.storage.kineUrl else "", if kine then spec.storage.kineSecret else "",
           if spec.remote.Some? then spec.remote.value.kubeconfigRef else None)
  }

  /** A v1beta1 object stored as v1beta2 and read back, with the annotations it comes back with. */
  function ThereAndBack(spec: SpecV1, annotations: map<Name, Text>): (SpecV1, map<Name, Text>) {
    var stored := annotations + DroppedFields(spec.service);
    (FromV2(ToV2(spec), stored), stored)
  }

  // ---- round trips ---------------------------------------------------------------------------------

  /** No annotation of an earlier conversion speaks for a field that is unset now. */
  predicate NothingLeftOver(s: Service, annotations: map<Name, Text>) {
    && (s.labels.None? ==> ReadMap(annotations, Labels).None?)
    && (s.annotations.None? ==> ReadMap(annotations, Annotations).None?)
    && (s.policy == "" ==> ReadString(annotations, TrafficPolicy) == "")
    && (s.lbClass.None? ==> ReadClass(annotations).None?)
  }

  lemma MapRead(annotations: map<Name, Text>, slot: Slot, m: Strings)
    requires Dropped(slot) in annotations && annotations[Dropped(slot)] == WriteMap(m)
    ensures ReadMap(annotations, slot) == Some(m)
  {
    var fields := annotations[Dropped(slot)].json.fields;
    assert (map k | k in fields :: if fields[k].Str? then fields[k].s else "") == m;
  }

  /** What is stored in one slot: the field if it is set, else what was there. */
  lemma StoredSlot(s: Service, annotations: map<Name, Text>, slot: Slot)
    ensures var stored, key, field := annotations + DroppedFields(s), Dropped(slot), FieldText(s, slot);
            if field.Some? then key in stored && stored[key] == field.value
            else (key in stored <==> key in annotations) && (key in stored ==> stored[key] == annotations[key])
  {
    match slot
    case Labels =>
    case Annotations =>
    case TrafficPolicy =>
    case LoadBalancerClass =>
  }

  /** What each reader finds after the fields were written. */
  lemma ReadBack(s: Service, annotations: map<Name, Text>)
    ensures var stored := annotations + DroppedFields(s);
            && ReadMap(stored, Labels) == (if s.labels.Some? then s.labels else ReadMap(annotations, Labels))
            && ReadMap(stored, Annotations) ==
                 (if s.annotations.Some? then s.annotations else ReadMap(annotations, Annotations))
            && ReadString(stored, TrafficPolicy) ==
                 (if s.policy != "" then s.policy else ReadString(annotations, TrafficPolicy))
            && ReadClass(stored) ==
                 (if s.lbClass.None? then ReadClass(annotations) else if s.lbClass.value == "" then None else s.lbClass)
  {
    var stored := annotations + DroppedFields(s);
    StoredSlot(s, annotations, Labels);
    StoredSlot(s, annotations, Annotations);
    StoredSlot(s, annotations, TrafficPolicy);
    StoredSlot(s, annotations, LoadBalancerClass);
    MapSlot(annotations, stored, Labels, s.labels);
    MapSlot(annotations, stored, Annotations, s.annotations);
  }

  /** Reading a map slot that holds the field or what was there. */
  lemma MapSlot(before: map<Name, Text>, after: map<Name, Text>, slot: Slot, field: Option<Strings>)
    requires var key := Dropped(slot);
             if field.Some? then key in after && after[key] == WriteMap(field.value)
             else (key in after <==> key in before) && (key in after ==> after[key] == before[key])
    ensures ReadMap(after, slot) == if field.Some? then field else ReadMap(before, slot)
  {
    if field.Some? { MapRead(after, slot, field.value); }
  }

  /** A v1beta1 spec comes back unchanged exactly when its load balancer class is not a pointer to
      the empty string and no annotation of an earlier conversion is left over for an unset field. */
  lemma V1Unchanged(spec: SpecV1, annotations: map<Name, Text>)
    ensures ThereAndBack(spec, annotations).0 == spec <==>
            spec.service.lbClass != Some("") && NothingLeftOver(spec.service, annotations)
  {
    ReadBack(spec.service, annotations);
  }

  /** One trip settles a spec: a second one changes nothing. */
  lemma SecondTripSettled(spec: SpecV1, annotations: map<Name, Text>)
    ensures var (once, kept) := ThereAndBack(spec, annotations);
            ThereAndBack(once, kept).0 == once
  {
    var (once, kept) := ThereAndBack(spec, annotations);
    ReadBack(spec.service, annotations);
    V1Unchanged(once, kept);
  }

  /** The annotations outlive the field: labels that a v1beta1 client set once cannot be removed
      by that client, whatever else it changes. */
  lemma RemovedLabelsReturn(spec: SpecV1, annotations: map<Name, Text>, edited: SpecV1)
    requires spec.service.labels.Some? && edited.service.labels.None?
    ensures ThereAndBack(edited, ThereAndBack(spec, annotations).1).0.service.labels == spec.service.labels
  {
    ReadBack(spec.service, annotations);
    ReadBack(edited.service, ThereAndBack(spec, annotations).1);
  }

  /** A v1beta2 spec survives v1beta1 exactly when it has no patches, no NATS, a storage kind that
      agrees with the Kine fields, and no remote host without a kubeconfig. */
  lemma V2Unchanged(spec: SpecV2, annotations: map<Name, Text>)
    ensures ToV2(FromV2(spec, annotations)) == spec <==>
            && spec.patches == [] && spec.storage.nats == Null
            && (spec.storage.kind == Kine || spec.storage.kind == Etcd)
            && (spec.storage.kind == Kine <==> spec.storage.kineUrl != "" || spec.storage.kineSecret != "")
            && spec.remote != Some(Remote(None))
  {
  }

  /** And with it the annotations, as far as they can be read: reading them again gives the same
      Service, so later trips lose nothing either. */
  lemma V2KeepsService(spec: SpecV2, annotations: map<Name, Text>)
    ensures var once := FromV2(spec, annotations);
            FromV2(ToV2(once), annotations + DroppedFields(once.service)).service == once.service
  {
    ReadBack(FromV2(spec, annotations).service, annotations);
  }

  // ---- the code --------------------------------------------------------------------------------------

  /** The annotations of `ConvertTo`, filled in whatever order the map hands out its entries. */
  method AddDropped(annotations: map<Name, Text>, dropped: map<Name, Text>) returns (stored: map<Name, Text>)
    ensures stored == annotations + dropped
  {
    stored := annotations;
    var todo := dropped.Keys;
    while todo != {}
      invariant todo <= dropped.Keys
      invariant stored == annotations + (map k | k in dropped && k !in todo :: dropped[k])
      decreases todo
    {
      var k :| k in todo;
      stored := stored[k := dropped[k]];
      todo := todo - {k};
    }
    assert (map k | k in dropped && k !in todo :: dropped[k]) == dropped;
  }

  /** `ConvertTo` and back: the answer of the pair of conversions, and when it is the identity. */
  method Convert(spec: SpecV1, annotations: map<Name, Text>) returns (back: SpecV1, stored: map<Name, Text>)
    ensures (back, stored) == ThereAndBack(spec, annotations)
    ensures back == spec <==> spec.service.lbClass != Some("") && NothingLeftOver(spec.service, annotations)
  {
    stored := AddDropped(annotations, DroppedFields(spec.service));
    back := FromV2(ToV2(spec), stored);
    V1Unchanged(spec, annotations);
  }

  /** Where each member of a stored spec comes from, and each of one that is read. */
  lemma HubFields(spec: SpecV1)
    ensures var hub := ToV2(spec);
            && hub.shared == spec.shared && hub.service == spec.service.core && hub.storage.etcd == spec.etcd
            && hub.storage.kineUrl == spec.kineUrl && hub.storage.kineSecret == spec.kineSecret
            && hub.storage.kind == (if spec.kineUrl == "" && spec.kineSecret == "" then Etcd else Kine)
            && hub.storage.nats == Null && hub.patches == []
            && (hub.remote.Some? <==> spec.kubeconfigRef.Some?)
            && (hub.remote.Some? ==> hub.remote.value.kubeconfigRef == spec.kubeconfigRef)
  {
  }

  /** A map slot reads as m exactly if it holds an object of strings and nulls, a null standing for the
      empty string; a string slot as a text exactly if it holds it. */
  lemma ReadersIff(annotations: map<Name, Text>, slot: Slot, m: Strings, s: string)
    ensures ReadMap(annotations, slot) == Some(m) <==>
              && Dropped(slot) in annotations && annotations[Dropped(slot)].Of? && annotations[Dropped(slot)].json.Obj?
              && var fields := annotations[Dropped(slot)].json.fields;
              && fields.Keys == m.Keys
              && forall k :: k in m ==> fields[k] == Str(m[k]) || (fields[k] == Null && m[k] == "")
    ensures s != "" ==>
              (ReadString(annotations, slot) == s <==>
                 Dropped(slot) in annotations && annotations[Dropped(slot)] == Of(Str(s)))
    ensures ReadClass(annotations) == (if ReadString(annotations, LoadBalancerClass) == "" then None
                                       else Some(ReadString(annotations, LoadBalancerClass)))
  {
    if Dropped(slot) in annotations && annotations[Dropped(slot)].Of? && annotations[Dropped(slot)].json.Obj? {
      var fields := annotations[Dropped(slot)].json.fields;
      if fields.Keys == m.Keys && (forall k :: k in m ==> fields[k] == Str(m[k]) || (fields[k] == Null && m[k] == "")) {
        assert ReadMap(annotations, slot).value == m;
      }
    }
  }
}
