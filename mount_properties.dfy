/**
 * What `Set` promises about the mount it builds, stated in terms of the
 * input fields: last write wins for single-valued keys, nested options are
 * allocated only when one of their keys appears, maps accumulate, and the
 * cross-field checks.
 */
module MountProperties {
  import opened Wrappers
  import opened GoStrings
  import opened GoInts
  import opened GoStrconv
  import opened MountTypes
  import opened MountOpts

  /** The recognised key a field names, bare or with a value. */
  function KeyKind(field: string): Option<Key> {
    KeyNamed(KeyOf(field))
  }

  /** The value `field` gives to key `k`: it is a `key=value` field naming `k`. */
  function Setting(field: string, k: Key): Option<string> {
    if KeyKind(field) == Some(k) then ValueOf(field) else None
  }

  /** `field` names key `k`, with its value if it has one. */
  function Mention(field: string, k: Key): Option<Option<string>> {
    if KeyKind(field) == Some(k) then Some(ValueOf(field)) else None
  }

  /** The keys whose fields need the volume options. */
  const VolumeKeys: set<Key> := {VolumeNoCopyKey, VolumeLabelKey, VolumeDriverKey, VolumeOptKey}

  /** `field` names one of the keys `ks`, with or without a value. */
  predicate NamesOneOf(field: string, ks: set<Key>) {
    KeyKind(field).Some? && KeyKind(field).value in ks
  }

  /** Some field names one of the keys `ks`, with or without a value. */
  predicate Mentions(fields: seq<string>, ks: set<Key>) {
    fields != [] && (Mentions(fields[..|fields| - 1], ks) || NamesOneOf(fields[|fields| - 1], ks))
  }

  /** The values given to key `k`, in field order. */
  function Settings(fields: seq<string>, k: Key): seq<string>
  {
    if fields == [] then []
    else
      var before := Settings(fields[..|fields| - 1], k);
      match Setting(fields[|fields| - 1], k)
      case Some(v) => before + [v]
      case None => before
  }

  /** The value given to key `k` by the last field that gives one. */
  function LastSetting(fields: seq<string>, k: Key): Option<string> {
    var values := Settings(fields, k);
    if values == [] then None else Some(values[|values| - 1])
  }

  /** The last field naming key `k`, as its optional value. */
  function LastMention(fields: seq<string>, k: Key): Option<Option<string>>
  {
    if fields == [] then None
    else match Mention(fields[|fields| - 1], k)
      case Some(x) => Some(x)
      case None => LastMention(fields[..|fields| - 1], k)
  }

  /** The last setting among `fields` is that of the final field if it sets `k`, else the last one before it. */
  lemma LastSettingLast(fields: seq<string>, k: Key)
    requires fields != []
    ensures LastSetting(fields, k) ==
      if Setting(fields[|fields| - 1], k).Some? then Setting(fields[|fields| - 1], k) else LastSetting(fields[..|fields| - 1], k)
  {
  }

  /** `base` after inserting each `k[=v]` sub-value in turn. */
  function InsertAll(base: map<string, string>, subValues: seq<string>): map<string, string>
  {
    if subValues == [] then base
    else SetValueOnMap(InsertAll(base, subValues[..|subValues| - 1]), subValues[|subValues| - 1])
  }

  /** The type a parse of `fields` ends with: the last `type=` value lower-cased, or "volume". */
  function FinalType(fields: seq<string>): string {
    match LastSetting(fields, TypeKey)
    case Some(v) => Lower(v)
    case None => TypeVolume
  }

  // Views of the nested options, reading a missing structure or map as empty.

  function LabelsOf(m: Mount): map<string, string> {
    if m.volumeOptions.Some? then m.volumeOptions.value.labels else map[]
  }

  function DriverOf(m: Mount): Driver {
    if m.volumeOptions.Some? && m.volumeOptions.value.driverConfig.Some? then m.volumeOptions.value.driverConfig.value
    else Driver("", None)
  }

  function DriverOptionsOf(m: Mount): map<string, string> {
    DriverOf(m).options.GetOr(map[])
  }

  function NoCopyOf(m: Mount): bool {
    m.volumeOptions.Some? && m.volumeOptions.value.noCopy
  }

  /** The driver-option map has been allocated. */
  predicate HasDriverOptions(m: Mount) {
    m.volumeOptions.Some? && m.volumeOptions.value.driverConfig.Some? && m.volumeOptions.value.driverConfig.value.options.Some?
  }

  function PropagationOf(m: Mount): string {
    if m.bindOptions.Some? then m.bindOptions.value.propagation else ""
  }

  /** A sub-value `k=v` maps `k` to everything after the first `=`, which may contain further `=`. */
  lemma SubValueWithEquals(target: map<string, string>, k: string, v: string)
    requires '=' !in k
    ensures SetValueOnMap(target, k + "=" + v) == target[k := v]
  {
    SplitAtFirstJoined(k, '=', v);
  }

  /** A sub-value without `=` maps all of it to the empty string. */
  lemma SubValueWithoutEquals(target: map<string, string>, s: string)
    requires '=' !in s
    ensures SetValueOnMap(target, s) == target[s := ""]
  {
    SplitAtFirstNone(s, '=');
  }

  /** Applying `a + b` is applying `a`, then `b` to its result: fields are processed strictly in order. */
  lemma {:induction false} ApplyFieldsConcat(m: Mount, a: seq<string>, b: seq<string>, ramInBytes: string -> Option<int64>)
    ensures ApplyFields(m, a + b, ramInBytes) ==
      match ApplyFields(m, a, ramInBytes)
      case Err(e) => Err(e)
      case Ok(mid) => ApplyFields(mid, b, ramInBytes)
    decreases |a|
  {
    if a == [] {
      assert a + b == b;
    } else {
      assert (a + b)[0] == a[0] && (a + b)[1..] == a[1..] + b;
      match ApplyField(m, a[0], ramInBytes)
      case Err(e) =>
      case Ok(next) => ApplyFieldsConcat(next, a[1..], b, ramInBytes);
    }
  }

  /** One more field at the end: the result is that field applied to the mount built so far. */
  lemma ApplyFieldsSnoc(m: Mount, fields: seq<string>, field: string, ramInBytes: string -> Option<int64>)
    ensures ApplyFields(m, fields + [field], ramInBytes) ==
      match ApplyFields(m, fields, ramInBytes)
      case Err(e) => Err(e)
      case Ok(mid) => ApplyField(mid, field, ramInBytes)
  {
    ApplyFieldsConcat(m, fields, [field], ramInBytes);
    match ApplyFields(m, fields, ramInBytes)
    case Err(e) =>
    case Ok(mid) => assert [field][1..] == [];
  }

  /** The fields before the final one are applied first, then the final one. */
  lemma ApplyFieldsLast(m: Mount, fields: seq<string>, ramInBytes: string -> Option<int64>)
    requires fields != []
    ensures ApplyFields(m, fields, ramInBytes) ==
      match ApplyFields(m, fields[..|fields| - 1], ramInBytes)
      case Err(e) => Err(e)
      case Ok(mid) => ApplyField(mid, fields[|fields| - 1], ramInBytes)
  {
    assert fields == fields[..|fields| - 1] + [fields[|fields| - 1]];
    ApplyFieldsSnoc(m, fields[..|fields| - 1], fields[|fields| - 1], ramInBytes);
  }

  /** What one accepted `key=value` field does to the top-level fields of the mount. */
  lemma SetKeyScalars(m: Mount, k: Key, key: string, v: string, ramInBytes: string -> Option<int64>, next: Mount)
    requires SetKey(m, k, key, v, ramInBytes) == Ok(next)
    ensures next.mountType == if k == TypeKey then Lower(v) else m.mountType
    ensures next.source == if k == SourceKey then v else m.source
    ensures next.target == if k == TargetKey then v else m.target
    ensures k == ReadOnlyKey ==> ParseBool(v) == Some(next.readOnly)
    ensures k != ReadOnlyKey ==> next.readOnly == m.readOnly
    ensures k == MaxIopsKey ==> Atoi(v).Some? && next.maxIOps == ToUint64(Atoi(v).value)
    ensures k != MaxIopsKey ==> next.maxIOps == m.maxIOps
    ensures k == MaxBandwidthKey ==> ramInBytes(v).Some? && next.maxBandwidth == ToUint64(ramInBytes(v).value)
    ensures k != MaxBandwidthKey ==> next.maxBandwidth == m.maxBandwidth
  {
  }

  /** What one accepted `key=value` field does to the presence and scalar parts of the nested options. */
  lemma SetKeyOptions(m: Mount, k: Key, key: string, v: string, ramInBytes: string -> Option<int64>, next: Mount)
    requires SetKey(m, k, key, v, ramInBytes) == Ok(next)
    ensures next.volumeOptions.Some? <==> m.volumeOptions.Some? || k in VolumeKeys
    ensures next.bindOptions.Some? <==> m.bindOptions.Some? || k == BindPropagationKey
    ensures WellFormed(m) ==> WellFormed(next)
    ensures HasDriverOptions(next) <==> HasDriverOptions(m) || k == VolumeOptKey
    ensures DriverOf(next).name == if k == VolumeDriverKey then v else DriverOf(m).name
    ensures PropagationOf(next) == if k == BindPropagationKey then Lower(v) else PropagationOf(m)
    ensures k == VolumeNoCopyKey ==> ParseBool(v) == Some(NoCopyOf(next))
    ensures k != VolumeNoCopyKey ==> NoCopyOf(next) == NoCopyOf(m)
  {
  }

  /** What one accepted `key=value` field does to the label and driver-option maps. */
  lemma SetKeyMaps(m: Mount, k: Key, key: string, v: string, ramInBytes: string -> Option<int64>, next: Mount)
    requires SetKey(m, k, key, v, ramInBytes) == Ok(next)
    ensures LabelsOf(next) == if k == VolumeLabelKey then SetValueOnMap(LabelsOf(m), v) else LabelsOf(m)
    ensures DriverOptionsOf(next) == if k == VolumeOptKey then SetValueOnMap(DriverOptionsOf(m), v) else DriverOptionsOf(m)
  {
  }

  /** What one accepted field does to the type, source and target. */
  lemma ApplyFieldStrings(m: Mount, field: string, ramInBytes: string -> Option<int64>, next: Mount)
    requires ApplyField(m, field, ramInBytes) == Ok(next)
    ensures next.mountType == match Setting(field, TypeKey) case Some(v) => Lower(v) case None => m.mountType
    ensures next.source == Setting(field, SourceKey).GetOr(m.source)
    ensures next.target == Setting(field, TargetKey).GetOr(m.target)
  {
    match ValueOf(field)
    case None =>
    case Some(v) => SetKeyScalars(m, KeyKind(field).value, KeyOf(field), v, ramInBytes, next);
  }

  /** What one accepted field does to the two boolean flags, bare or `key=value`. */
  lemma ApplyFieldFlags(m: Mount, field: string, ramInBytes: string -> Option<int64>, next: Mount)
    requires ApplyField(m, field, ramInBytes) == Ok(next)
    ensures match Mention(field, ReadOnlyKey)
      case None => next.readOnly == m.readOnly
      case Some(None) => next.readOnly
      case Some(Some(v)) => ParseBool(v) == Some(next.readOnly)
    ensures match Mention(field, VolumeNoCopyKey)
      case None => NoCopyOf(next) == NoCopyOf(m)
      case Some(None) => NoCopyOf(next)
      case Some(Some(v)) => ParseBool(v) == Some(NoCopyOf(next))
  {
    match ValueOf(field)
    case None =>
    case Some(v) =>
      SetKeyScalars(m, KeyKind(field).value, KeyOf(field), v, ramInBytes, next);
      SetKeyOptions(m, KeyKind(field).value, KeyOf(field), v, ramInBytes, next);
  }

  /** What one accepted field does to the two limits. */
  lemma ApplyFieldLimits(m: Mount, field: string, ramInBytes: string -> Option<int64>, next: Mount)
    requires ApplyField(m, field, ramInBytes) == Ok(next)
    ensures match Setting(field, MaxIopsKey)
      case None => next.maxIOps == m.maxIOps
      case Some(v) => Atoi(v).Some? && next.maxIOps == ToUint64(Atoi(v).value)
    ensures match Setting(field, MaxBandwidthKey)
      case None => next.maxBandwidth == m.maxBandwidth
      case Some(v) => ramInBytes(v).Some? && next.maxBandwidth == ToUint64(ramInBytes(v).value)
  {
    match ValueOf(field)
    case None =>
    case Some(v) => SetKeyScalars(m, KeyKind(field).value, KeyOf(field), v, ramInBytes, next);
  }

  /** What one accepted field does to the presence of the nested options and their single values. */
  lemma ApplyFieldOptions(m: Mount, field: string, ramInBytes: string -> Option<int64>, next: Mount)
    requires ApplyField(m, field, ramInBytes) == Ok(next)
    ensures next.volumeOptions.Some? <==> m.volumeOptions.Some? || NamesOneOf(field, VolumeKeys)
    ensures next.bindOptions.Some? <==> m.bindOptions.Some? || NamesOneOf(field, {BindPropagationKey})
    ensures WellFormed(m) ==> WellFormed(next)
    ensures HasDriverOptions(next) <==> HasDriverOptions(m) || NamesOneOf(field, {VolumeOptKey})
    ensures PropagationOf(next) == match Setting(field, BindPropagationKey) case Some(v) => Lower(v) case None => PropagationOf(m)
    ensures DriverOf(next).name == Setting(field, VolumeDriverKey).GetOr(DriverOf(m).name)
  {
    match ValueOf(field)
    case None =>
    case Some(v) => SetKeyOptions(m, KeyKind(field).value, KeyOf(field), v, ramInBytes, next);
  }

  /** What one accepted field does to the label and driver-option maps. */
  lemma ApplyFieldMaps(m: Mount, field: string, ramInBytes: string -> Option<int64>, next: Mount)
    requires ApplyField(m, field, ramInBytes) == Ok(next)
    ensures LabelsOf(next) == match Setting(field, VolumeLabelKey)
      case Some(v) => SetValueOnMap(LabelsOf(m), v)
      case None => LabelsOf(m)
    ensures DriverOptionsOf(next) == match Setting(field, VolumeOptKey)
      case Some(v) => SetValueOnMap(DriverOptionsOf(m), v)
      case None => DriverOptionsOf(m)
  {
    match ValueOf(field)
    case None =>
    case Some(v) => SetKeyMaps(m, KeyKind(field).value, KeyOf(field), v, ramInBytes, next);
  }

  /**
   * Single-valued keys, last write wins: type, source and target end up with the
   * value of the last field that sets them (type lower-cased), and keep their
   * starting values when no field does.
   */
  lemma {:induction false} LastWriteWins(m0: Mount, fields: seq<string>, ramInBytes: string -> Option<int64>, m: Mount)
    requires ApplyFields(m0, fields, ramInBytes) == Ok(m)
    ensures m.mountType == match LastSetting(fields, TypeKey) case Some(v) => Lower(v) case None => m0.mountType
    ensures m.source == LastSetting(fields, SourceKey).GetOr(m0.source)
    ensures m.target == LastSetting(fields, TargetKey).GetOr(m0.target)
    decreases |fields|
  {
    if fields != [] {
      var before, last := fields[..|fields| - 1], fields[|fields| - 1];
      LastSettingLast(fields, TypeKey);
      LastSettingLast(fields, SourceKey);
      LastSettingLast(fields, TargetKey);
      ApplyFieldsLast(m0, fields, ramInBytes);
      var mid := ApplyFields(m0, before, ramInBytes).value;
      LastWriteWins(m0, before, ramInBytes, mid);
      ApplyFieldStrings(mid, last, ramInBytes, m);
    }
  }

  /**
   * The flags readonly/ro and volume-nocopy follow their last field: a bare one
   * sets the flag, a `key=value` one sets what ParseBool reads from the value.
   */
  lemma {:induction false} FlagsLastWriteWins(m0: Mount, fields: seq<string>, ramInBytes: string -> Option<int64>, m: Mount)
    requires ApplyFields(m0, fields, ramInBytes) == Ok(m)
    ensures match LastMention(fields, ReadOnlyKey)
      case None => m.readOnly == m0.readOnly
      case Some(None) => m.readOnly
      case Some(Some(v)) => ParseBool(v) == Some(m.readOnly)
    ensures match LastMention(fields, VolumeNoCopyKey)
      case None => NoCopyOf(m) == NoCopyOf(m0)
      case Some(None) => NoCopyOf(m)
      case Some(Some(v)) => ParseBool(v) == Some(NoCopyOf(m))
    decreases |fields|
  {
    if fields != [] {
      var before, last := fields[..|fields| - 1], fields[|fields| - 1];
      ApplyFieldsLast(m0, fields, ramInBytes);
      var mid := ApplyFields(m0, before, ramInBytes).value;
      FlagsLastWriteWins(m0, before, ramInBytes, mid);
      ApplyFieldFlags(mid, last, ramInBytes, m);
    }
  }

  /**
   * max-iops and max-bandwidth follow their last field, converted to uint64: a
   * negative max-iops is accepted and wraps around modulo 2^64.
   */
  lemma {:induction false} LimitsLastWriteWins(m0: Mount, fields: seq<string>, ramInBytes: string -> Option<int64>, m: Mount)
    requires ApplyFields(m0, fields, ramInBytes) == Ok(m)
    ensures match LastSetting(fields, MaxIopsKey)
      case None => m.maxIOps == m0.maxIOps
      case Some(v) => Atoi(v).Some? && m.maxIOps == ToUint64(Atoi(v).value)
    ensures match LastSetting(fields, MaxBandwidthKey)
      case None => m.maxBandwidth == m0.maxBandwidth
      case Some(v) => ramInBytes(v).Some? && m.maxBandwidth == ToUint64(ramInBytes(v).value)
    decreases |fields|
  {
    if fields != [] {
      var before, last := fields[..|fields| - 1], fields[|fields| - 1];
      LastSettingLast(fields, MaxIopsKey);
      LastSettingLast(fields, MaxBandwidthKey);
      ApplyFieldsLast(m0, fields, ramInBytes);
      var mid := ApplyFields(m0, before, ramInBytes).value;
      LimitsLastWriteWins(m0, before, ramInBytes, mid);
      ApplyFieldLimits(mid, last, ramInBytes, m);
    }
  }

  /**
   * Nested options are allocated lazily: volume options exist exactly when some field
   * names a volume-* key, bind options exactly when some field names bind-propagation,
   * the driver-option map exactly when some field names volume-opt, and volume
   * options always come with their driver configuration. bind-propagation
   * (lower-cased) and volume-driver follow their last field.
   */
  lemma {:induction false} OptionsAllocatedLazily(m0: Mount, fields: seq<string>, ramInBytes: string -> Option<int64>, m: Mount)
    requires ApplyFields(m0, fields, ramInBytes) == Ok(m)
    ensures m.volumeOptions.Some? <==> m0.volumeOptions.Some? || Mentions(fields, VolumeKeys)
    ensures m.bindOptions.Some? <==> m0.bindOptions.Some? || Mentions(fields, {BindPropagationKey})
    ensures WellFormed(m0) ==> WellFormed(m)
    ensures HasDriverOptions(m) <==> HasDriverOptions(m0) || Mentions(fields, {VolumeOptKey})
    ensures PropagationOf(m) == match LastSetting(fields, BindPropagationKey) case Some(v) => Lower(v) case None => PropagationOf(m0)
    ensures DriverOf(m).name == LastSetting(fields, VolumeDriverKey).GetOr(DriverOf(m0).name)
    decreases |fields|
  {
    if fields != [] {
      var before, last := fields[..|fields| - 1], fields[|fields| - 1];
      LastSettingLast(fields, BindPropagationKey);
      LastSettingLast(fields, VolumeDriverKey);
      ApplyFieldsLast(m0, fields, ramInBytes);
      var mid := ApplyFields(m0, before, ramInBytes).value;
      OptionsAllocatedLazily(m0, before, ramInBytes, mid);
      ApplyFieldOptions(mid, last, ramInBytes, m);
    }
  }

  /**
   * volume-label and volume-opt accumulate: each map is what inserting the values of
   * those fields in order gives, a later duplicate sub-key overwriting an earlier one.
   */
  lemma {:induction false} MapsAccumulate(m0: Mount, fields: seq<string>, ramInBytes: string -> Option<int64>, m: Mount)
    requires ApplyFields(m0, fields, ramInBytes) == Ok(m)
    ensures LabelsOf(m) == InsertAll(LabelsOf(m0), Settings(fields, VolumeLabelKey))
    ensures DriverOptionsOf(m) == InsertAll(DriverOptionsOf(m0), Settings(fields, VolumeOptKey))
    decreases |fields|
  {
    if fields != [] {
      var before, last := fields[..|fields| - 1], fields[|fields| - 1];
      ApplyFieldsLast(m0, fields, ramInBytes);
      var mid := ApplyFields(m0, before, ramInBytes).value;
      MapsAccumulate(m0, before, ramInBytes, mid);
      ApplyFieldMaps(mid, last, ramInBytes, m);
      InsertAllSnoc(LabelsOf(m0), Settings(before, VolumeLabelKey), Setting(last, VolumeLabelKey));
      InsertAllSnoc(DriverOptionsOf(m0), Settings(before, VolumeOptKey), Setting(last, VolumeOptKey));
    }
  }

  lemma InsertAllSnoc(base: map<string, string>, subValues: seq<string>, next: Option<string>)
    ensures InsertAll(base, subValues + (if next.Some? then [next.value] else [])) ==
      if next.Some? then SetValueOnMap(InsertAll(base, subValues), next.value) else InsertAll(base, subValues)
  {
    if next.Some? {
      assert (subValues + [next.value])[..|subValues|] == subValues;
    } else {
      assert subValues + [] == subValues;
    }
  }

  /**
   * The outcome of parsing a field list, in terms of the fields alone: the first
   * field error, else "type is required" when the final type is empty, else
   * "target is required", else the two option-mixing errors, else the mount.
   * Any type other than "bind" and "volume" accepts both kinds of options.
   */
  lemma ParseFieldsOutcome(fields: seq<string>, ramInBytes: string -> Option<int64>)
    ensures ApplyFields(DefaultMount, fields, ramInBytes).Err? ==>
      ParseFields(fields, ramInBytes) == ApplyFields(DefaultMount, fields, ramInBytes)
    ensures ApplyFields(DefaultMount, fields, ramInBytes).Ok? ==>
      ParseFields(fields, ramInBytes) ==
        if FinalType(fields) == "" then Err(TypeRequired)
        else if LastSetting(fields, TargetKey).GetOr("") == "" then Err(TargetRequired)
        else if FinalType(fields) == TypeBind && Mentions(fields, VolumeKeys) then Err(VolumeOptionsWithBind)
        else if FinalType(fields) == TypeVolume && Mentions(fields, {BindPropagationKey}) then Err(BindOptionsWithVolume)
        else ApplyFields(DefaultMount, fields, ramInBytes)
  {
    match ApplyFields(DefaultMount, fields, ramInBytes)
    case Err(e) =>
    case Ok(m) =>
      LastWriteWins(DefaultMount, fields, ramInBytes, m);
      OptionsAllocatedLazily(DefaultMount, fields, ramInBytes, m);
  }

  /**
   * Every mount `Set` appends has a non-empty type and target, its target is the value
   * of the last target field, its nested options respect the declared type, and its
   * volume options carry a driver configuration.
   */
  lemma ParsedMountIsValid(fields: seq<string>, ramInBytes: string -> Option<int64>, m: Mount)
    requires ParseFields(fields, ramInBytes) == Ok(m)
    ensures m.mountType != "" && m.target != ""
    ensures m.mountType == FinalType(fields)
    ensures LastSetting(fields, TargetKey) == Some(m.target)
    ensures m.mountType == TypeBind ==> m.volumeOptions.None?
    ensures m.mountType == TypeVolume ==> m.bindOptions.None?
    ensures WellFormed(m)
  {
    LastWriteWins(DefaultMount, fields, ramInBytes, m);
    OptionsAllocatedLazily(DefaultMount, fields, ramInBytes, m);
  }

  /**
   * What `String` shows after one more successful `Set`: the new mount's entry,
   * after the earlier ones and a ", " when there are any.
   */
  lemma RenderedAppend(mounts: seq<Mount>, m: Mount)
    ensures Rendered(mounts + [m]) == if mounts == [] then Entry(m) else Rendered(mounts) + ", " + Entry(m)
  {
    assert Entries(mounts + [m]) == Entries(mounts) + [Entry(m)];
    if mounts != [] {
      JoinAppend(Entries(mounts), Entry(m), ", ");
    }
  }
}
