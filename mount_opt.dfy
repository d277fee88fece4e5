/**
 * The `--mount` option value: `Set` parses one `key[=value],...` string into
 * a Mount and appends it to the list of mounts seen so far.
 *
 * The CSV tokenising and the byte-size parsing are done by library code that
 * is not part of this model; `Set` receives both as function parameters
 * (`csvRead`, `ramInBytes`).
 */
module MountOpts {
  import opened Wrappers
  import opened GoStrings
  import opened GoInts
  import opened GoStrconv
  import opened MountTypes

  /** One error per way `Set` can fail, carrying the key, field or value it names. */
  datatype SetError =
    | CsvError(reason: string)                  // the CSV reader rejected the input
    | NotKeyValue(field: string)                // a bare field other than a flag
    | InvalidValue(key: string, value: string)  // readonly/ro, max-bandwidth or max-iops value rejected
    | InvalidNoCopy(value: string)              // volume-nocopy value rejected
    | UnexpectedKey(key: string, field: string) // a key=value field with an unknown key
    | TypeRequired
    | TargetRequired
    | VolumeOptionsWithBind                     // volume-* options on a bind mount
    | BindOptionsWithVolume                     // bind-* options on a volume mount

  /** The recognised keys of a `key=value` field. */
  datatype Key =
    | TypeKey | SourceKey | TargetKey | ReadOnlyKey | MaxBandwidthKey | MaxIopsKey
    | BindPropagationKey | VolumeNoCopyKey | VolumeLabelKey | VolumeDriverKey | VolumeOptKey

  /** What a lower-cased key spelling sets, if it is one of the accepted spellings. */
  function KeyNamed(key: string): Option<Key> {
    if key == "type" then Some(TypeKey)
    else if key == "source" || key == "src" then Some(SourceKey)
    else if key == "target" || key == "dst" || key == "destination" then Some(TargetKey)
    else if key == "readonly" || key == "ro" then Some(ReadOnlyKey)
    else if key == "max-bandwidth" then Some(MaxBandwidthKey)
    else if key == "max-iops" then Some(MaxIopsKey)
    else if key == "bind-propagation" then Some(BindPropagationKey)
    else if key == "volume-nocopy" then Some(VolumeNoCopyKey)
    else if key == "volume-label" then Some(VolumeLabelKey)
    else if key == "volume-driver" then Some(VolumeDriverKey)
    else if key == "volume-opt" then Some(VolumeOptKey)
    else None
  }

  /** A mount before any field is read: only the type is set, to "volume". */
  const DefaultMount: Mount := Mount(TypeVolume, "", "", false, None, None, 0, 0)

  /** The lower-cased key of a field: the text before its first `=`. */
  function KeyOf(field: string): string {
    Lower(SplitAtFirst(field, '=').0)
  }

  /** The value of a field: the text after its first `=`, if it has one. */
  function ValueOf(field: string): Option<string> {
    SplitAtFirst(field, '=').1
  }

  /**
   * The volume options of `m`, allocated if still missing, with their driver
   * configuration allocated if still missing (the `volumeOptions` closure).
   */
  function VolumeOptionsOf(m: Mount): (vo: VolumeOptions)
    ensures vo.driverConfig.Some?
    ensures m.volumeOptions.None? ==> !vo.noCopy && vo.labels == map[] && vo.driverConfig == Some(Driver("", None))
    ensures m.volumeOptions.Some? ==>
      vo.noCopy == m.volumeOptions.value.noCopy && vo.labels == m.volumeOptions.value.labels
    ensures WellFormed(m) && m.volumeOptions.Some? ==> vo == m.volumeOptions.value
  {
    var vo := if m.volumeOptions.None? then VolumeOptions(false, map[], None) else m.volumeOptions.value;
    if vo.driverConfig.None? then vo.(driverConfig := Some(Driver("", None))) else vo
  }

  /** The bind options of `m`, allocated if still missing (the `bindOptions` closure). */
  function BindOptionsOf(m: Mount): (bo: BindOptions)
    ensures m.bindOptions.Some? ==> bo == m.bindOptions.value
    ensures m.bindOptions.None? ==> bo.propagation == ""
  {
    if m.bindOptions.None? then BindOptions("") else m.bindOptions.value
  }

  /** `setValueOnMap`: inserts a `k[=v]` sub-value, split at its first `=`, into `target`. */
  function SetValueOnMap(target: map<string, string>, value: string): map<string, string>
  {
    var (k, v) := SplitAtFirst(value, '=');
    target[k := v.GetOr("")]
  }

  /** The effect of one field on the mount being built, or the error it causes. */
  function ApplyField(m: Mount, field: string, ramInBytes: string -> Option<int64>): Result<Mount, SetError>
  {
    var key := KeyOf(field);
    match ValueOf(field)
    case None =>
      (match KeyNamed(key)
       case Some(ReadOnlyKey) => Ok(m.(readOnly := true))
       case Some(VolumeNoCopyKey) => Ok(m.(volumeOptions := Some(VolumeOptionsOf(m).(noCopy := true))))
       case _ => Err(NotKeyValue(field)))
    case Some(value) => ApplyKeyValue(m, key, field, value, ramInBytes)
  }

  /** The effect of a field `field` that splits into the lower-cased `key` and `value`. */
  function ApplyKeyValue(m: Mount, key: string, field: string, value: string, ramInBytes: string -> Option<int64>)
    : Result<Mount, SetError>
  {
    match KeyNamed(key)
    case Some(k) => SetKey(m, k, key, value, ramInBytes)
    case None => Err(UnexpectedKey(key, field))
  }

  /** The effect of a `key=value` field whose key is recognised as `k`. */
  function SetKey(m: Mount, k: Key, key: string, value: string, ramInBytes: string -> Option<int64>): Result<Mount, SetError>
  {
    match k
    case TypeKey => Ok(m.(mountType := Lower(value)))
    case SourceKey => Ok(m.(source := value))
    case TargetKey => Ok(m.(target := value))
    case ReadOnlyKey =>
      (match ParseBool(value)
       case None => Err(InvalidValue(key, value))
       case Some(b) => Ok(m.(readOnly := b)))
    case MaxBandwidthKey =>
      (match ramInBytes(value)
       case None => Err(InvalidValue(key, value))
       case Some(n) => Ok(m.(maxBandwidth := ToUint64(n))))
    case MaxIopsKey =>
      (match Atoi(value)
       case None => Err(InvalidValue(key, value))
       case Some(n) => Ok(m.(maxIOps := ToUint64(n))))
    case BindPropagationKey =>
      Ok(m.(bindOptions := Some(BindOptionsOf(m).(propagation := Lower(value)))))
    case VolumeNoCopyKey =>
      (match ParseBool(value)
       case None => Err(InvalidNoCopy(value))
       case Some(b) => Ok(m.(volumeOptions := Some(VolumeOptionsOf(m).(noCopy := b)))))
    case VolumeLabelKey =>
      var vo := VolumeOptionsOf(m);
      Ok(m.(volumeOptions := Some(vo.(labels := SetValueOnMap(vo.labels, value)))))
    case VolumeDriverKey =>
      var vo := VolumeOptionsOf(m);
      Ok(m.(volumeOptions := Some(vo.(driverConfig := Some(vo.driverConfig.value.(name := value))))))
    case VolumeOptKey =>
      var vo := VolumeOptionsOf(m);
      var driver := vo.driverConfig.value;
      var options := SetValueOnMap(driver.options.GetOr(map[]), value);
      Ok(m.(volumeOptions := Some(vo.(driverConfig := Some(driver.(options := Some(options)))))))
  }

  /** The fields applied in order, stopping at the first error. */
  function ApplyFields(m: Mount, fields: seq<string>, ramInBytes: string -> Option<int64>): Result<Mount, SetError>
    decreases |fields|
  {
    if fields == [] then Ok(m)
    else match ApplyField(m, fields[0], ramInBytes)
      case Err(e) => Err(e)
      case Ok(next) => ApplyFields(next, fields[1..], ramInBytes)
  }

  /** The cross-field checks run once every field has been applied. */
  function Validate(m: Mount): (r: Result<Mount, SetError>)
    ensures r.Ok? <==>
      m.mountType != "" && m.target != "" &&
      !(m.mountType == TypeBind && m.volumeOptions.Some?) && !(m.mountType == TypeVolume && m.bindOptions.Some?)
    ensures r.Ok? ==> r.value == m
  {
    if m.mountType == "" then Err(TypeRequired)
    else if m.target == "" then Err(TargetRequired)
    else if m.mountType == TypeBind && m.volumeOptions.Some? then Err(VolumeOptionsWithBind)
    else if m.mountType == TypeVolume && m.bindOptions.Some? then Err(BindOptionsWithVolume)
    else Ok(m)
  }

  /** The mount described by an already tokenised field list, or the first error. */
  function ParseFields(fields: seq<string>, ramInBytes: string -> Option<int64>): Result<Mount, SetError>
  {
    match ApplyFields(DefaultMount, fields, ramInBytes)
    case Err(e) => Err(e)
    case Ok(m) => Validate(m)
  }

  /** The mount described by one raw option value, or the first error. */
  function Parse(
    value: string,
    csvRead: string -> Result<seq<string>, string>,
    ramInBytes: string -> Option<int64>): Result<Mount, SetError>
  {
    match csvRead(value)
    case Err(reason) => Err(CsvError(reason))
    case Ok(fields) => ParseFields(fields, ramInBytes)
  }

  /** How `String` shows one mount: type, source and target separated by blanks. */
  function Entry(m: Mount): string {
    m.mountType + " " + m.source + " " + m.target
  }

  function Entries(mounts: seq<Mount>): seq<string> {
    seq(|mounts|, i requires 0 <= i < |mounts| => Entry(mounts[i]))
  }

  /** What `String` returns for `mounts`. */
  function Rendered(mounts: seq<Mount>): string {
    Join(Entries(mounts), ", ")
  }

  /**
   * The body of `Set`'s loop: updates a copy of `mount` for one field, allocating
   * the nested options when their first key appears.
   */
  method SetField(mount: Mount, field: string, ramInBytes: string -> Option<int64>) returns (r: Result<Mount, SetError>)
    ensures r == ApplyField(mount, field, ramInBytes)
  {
    var (name, optValue) := SplitAtFirst(field, '=');
    var key := Lower(name);
    var known := KeyNamed(key);

    if optValue.None? {
      if known == Some(ReadOnlyKey) {
        return Ok(mount.(readOnly := true));
      } else if known == Some(VolumeNoCopyKey) {
        return Ok(mount.(volumeOptions := Some(VolumeOptionsOf(mount).(noCopy := true))));
      }
      return Err(NotKeyValue(field));
    }

    var v := optValue.value;
    match known
    case Some(TypeKey) =>
      return Ok(mount.(mountType := Lower(v)));
    case Some(SourceKey) =>
      return Ok(mount.(source := v));
    case Some(TargetKey) =>
      return Ok(mount.(target := v));
    case Some(ReadOnlyKey) =>
      var b := ParseBool(v);
      if b.None? {
        return Err(InvalidValue(key, v));
      }
      return Ok(mount.(readOnly := b.value));
    case Some(MaxBandwidthKey) =>
      var bandwidth := ramInBytes(v);
      if bandwidth.None? {
        return Err(InvalidValue(key, v));
      }
      return Ok(mount.(maxBandwidth := ToUint64(bandwidth.value)));
    case Some(MaxIopsKey) =>
      var iops := Atoi(v);
      if iops.None? {
        return Err(InvalidValue(key, v));
      }
      return Ok(mount.(maxIOps := ToUint64(iops.value)));
    case Some(BindPropagationKey) =>
      return Ok(mount.(bindOptions := Some(BindOptionsOf(mount).(propagation := Lower(v)))));
    case Some(VolumeNoCopyKey) =>
      var b := ParseBool(v);
      if b.None? {
        return Err(InvalidNoCopy(v));
      }
      return Ok(mount.(volumeOptions := Some(VolumeOptionsOf(mount).(noCopy := b.value))));
    case Some(VolumeLabelKey) =>
      var vo := VolumeOptionsOf(mount);
      return Ok(mount.(volumeOptions := Some(vo.(labels := SetValueOnMap(vo.labels, v)))));
    case Some(VolumeDriverKey) =>
      var vo := VolumeOptionsOf(mount);
      return Ok(mount.(volumeOptions := Some(vo.(driverConfig := Some(vo.driverConfig.value.(name := v))))));
    case Some(VolumeOptKey) =>
      var vo := VolumeOptionsOf(mount);
      var driver := vo.driverConfig.value;
      if driver.options.None? {
        driver := driver.(options := Some(map[]));
      }
      var options := SetValueOnMap(driver.options.value, v);
      return Ok(mount.(volumeOptions := Some(vo.(driverConfig := Some(driver.(options := Some(options)))))));
    case None =>
      return Err(UnexpectedKey(key, field));
  }

  /** The accumulated value of a repeated `--mount` flag. */
  class MountOpt {
    var values: seq<Mount>

    constructor ()
      ensures values == []
    {
      values := [];
    }

    /**
     * Parses `value` and, when it is a valid mount, appends it. On any error
     * the accumulated mounts are left as they were.
     */
    method Set(
      value: string,
      csvRead: string -> Result<seq<string>, string>,
      ramInBytes: string -> Option<int64>) returns (err: Option<SetError>)
      modifies this
      ensures match Parse(value, csvRead, ramInBytes)
        case Ok(mount) => err == None && values == old(values) + [mount]
        case Err(e) => err == Some(e) && values == old(values)
    {
      var record := csvRead(value);
      if record.Err? {
        return Some(CsvError(record.error));
      }
      var fields := record.value;

      var mount := DefaultMount;
      for i := 0 to |fields|
        invariant values == old(values)
        invariant ApplyFields(DefaultMount, fields, ramInBytes) == ApplyFields(mount, fields[i..], ramInBytes)
      {
        var field := fields[i];
        assert fields[i..][0] == field && fields[i..][1..] == fields[i + 1..];
        var next := SetField(mount, field, ramInBytes);
        if next.Err? {
          assert ApplyFields(mount, fields[i..], ramInBytes) == Err(next.error);
          return Some(next.error);
        }
        mount := next.value;
      }
      assert fields[|fields|..] == [];
      assert ApplyFields(DefaultMount, fields, ramInBytes) == Ok(mount);

      if mount.mountType == "" {
        return Some(TypeRequired);
      }
      if mount.target == "" {
        return Some(TargetRequired);
      }
      if mount.mountType == TypeBind && mount.volumeOptions.Some? {
        return Some(VolumeOptionsWithBind);
      }
      if mount.mountType == TypeVolume && mount.bindOptions.Some? {
        return Some(BindOptionsWithVolume);
      }
      values := values + [mount];
      return None;
    }

    /** The accumulated mounts shown as "type source target" entries joined by ", ". */
    method String() returns (s: string)
      ensures s == Rendered(values)
    {
      var mounts: seq<string> := [];
      for i := 0 to |values|
        invariant |mounts| == i
        invariant forall k :: 0 <= k < i ==> mounts[k] == Entry(values[k])
      {
        mounts := mounts + [Entry(values[i])];
      }
      assert mounts == Entries(values);
      s := Join(mounts, ", ");
    }

    /** The accumulated mounts, in the order they were set. */
    method Value() returns (mounts: seq<Mount>)
      ensures mounts == values
    {
      mounts := values;
    }
  }
}
