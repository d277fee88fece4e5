/**
 * What a single field does on its own: how it is split into key and value,
 * which fields are rejected and with which error, and that keys are matched
 * without regard to case.
 */
module FieldProperties {
  import opened Wrappers
  import opened GoStrings
  import opened GoInts
  import opened GoStrconv
  import opened MountTypes
  import opened MountOpts
  import opened MountProperties

  /** The keys that may be given as a bare field, without `=value`. */
  const FlagSpellings: set<string> := {"readonly", "ro", "volume-nocopy"}

  /**
   * The error a field causes, decided by the field alone: a bare field that is
   * not a flag, an unknown key, or a value its key's parser rejects.
   */
  function FieldError(field: string, ramInBytes: string -> Option<int64>): Option<SetError> {
    match ValueOf(field)
    case None => if KeyOf(field) in FlagSpellings then None else Some(NotKeyValue(field))
    case Some(v) =>
      match KeyKind(field)
      case None => Some(UnexpectedKey(KeyOf(field), field))
      case Some(ReadOnlyKey) => if ParseBool(v).None? then Some(InvalidValue(KeyOf(field), v)) else None
      case Some(MaxBandwidthKey) => if ramInBytes(v).None? then Some(InvalidValue(KeyOf(field), v)) else None
      case Some(MaxIopsKey) => if Atoi(v).None? then Some(InvalidValue(KeyOf(field), v)) else None
      case Some(VolumeNoCopyKey) => if ParseBool(v).None? then Some(InvalidNoCopy(v)) else None
      case Some(_) => None
  }

  /** The error of the first field of `fields` that has one. */
  function FirstError(fields: seq<string>, ramInBytes: string -> Option<int64>): Option<SetError> {
    if fields == [] then None
    else match FieldError(fields[0], ramInBytes)
      case Some(e) => Some(e)
      case None => FirstError(fields[1..], ramInBytes)
  }

  /** The flag spellings are exactly the keys naming readonly/ro or volume-nocopy. */
  lemma FlagSpellingsNameFlags(key: string)
    ensures key in FlagSpellings <==> KeyNamed(key) == Some(ReadOnlyKey) || KeyNamed(key) == Some(VolumeNoCopyKey)
  {
    if KeyNamed(key) == Some(ReadOnlyKey) {
      assert key == "readonly" || key == "ro";
    }
  }

  /** A field fails exactly when `FieldError` says so, with that error, whatever was built before it. */
  lemma FieldOutcome(m: Mount, field: string, ramInBytes: string -> Option<int64>)
    ensures ApplyField(m, field, ramInBytes).Err? <==> FieldError(field, ramInBytes).Some?
    ensures ApplyField(m, field, ramInBytes).Err? ==> ApplyField(m, field, ramInBytes).error == FieldError(field, ramInBytes).value
  {
    match ValueOf(field)
    case None => FlagSpellingsNameFlags(KeyOf(field));
    case Some(v) => SetKeyOutcome(m, KeyKind(field), KeyOf(field), field, v, ramInBytes);
  }

  /** A `key=value` field fails for an unknown key or for a value its key's parser rejects, and for nothing else. */
  lemma SetKeyOutcome(m: Mount, k: Option<Key>, key: string, field: string, v: string, ramInBytes: string -> Option<int64>)
    requires k == KeyNamed(key)
    ensures ApplyKeyValue(m, key, field, v, ramInBytes).Err? <==>
      k.None? || (k.value in {ReadOnlyKey, VolumeNoCopyKey} && ParseBool(v).None?) ||
      (k.value == MaxBandwidthKey && ramInBytes(v).None?) || (k.value == MaxIopsKey && Atoi(v).None?)
    ensures ApplyKeyValue(m, key, field, v, ramInBytes).Err? ==>
      ApplyKeyValue(m, key, field, v, ramInBytes).error ==
        if k.None? then UnexpectedKey(key, field)
        else if k.value == VolumeNoCopyKey then InvalidNoCopy(v)
        else InvalidValue(key, v)
  {
  }

  /**
   * Fields are applied until the first one that fails: the fold fails exactly
   * when some field is bad, and reports the error of the first bad field.
   */
  lemma {:induction false} FieldsOutcome(m: Mount, fields: seq<string>, ramInBytes: string -> Option<int64>)
    ensures ApplyFields(m, fields, ramInBytes).Err? <==> FirstError(fields, ramInBytes).Some?
    ensures ApplyFields(m, fields, ramInBytes).Err? ==> ApplyFields(m, fields, ramInBytes).error == FirstError(fields, ramInBytes).value
    decreases |fields|
  {
    if fields != [] {
      FieldOutcome(m, fields[0], ramInBytes);
      match ApplyField(m, fields[0], ramInBytes)
      case Err(_) =>
      case Ok(next) => FieldsOutcome(next, fields[1..], ramInBytes);
    }
  }

  /**
   * A field without `=` is accepted only when it is, in any case, readonly, ro or
   * volume-nocopy; the first two set the read-only flag, the last the no-copy flag.
   * Any other bare field is rejected as not being a key=value pair.
   */
  lemma BareField(m: Mount, field: string, ramInBytes: string -> Option<int64>)
    requires '=' !in field
    ensures ApplyField(m, field, ramInBytes).Ok? <==> Lower(field) in FlagSpellings
    ensures ApplyField(m, field, ramInBytes).Err? ==> ApplyField(m, field, ramInBytes).error == NotKeyValue(field)
    ensures Lower(field) in {"readonly", "ro"} ==> ApplyField(m, field, ramInBytes) == Ok(m.(readOnly := true))
    ensures Lower(field) == "volume-nocopy" ==>
      ApplyField(m, field, ramInBytes).Ok? && NoCopyOf(ApplyField(m, field, ramInBytes).value) &&
      ApplyField(m, field, ramInBytes).value.readOnly == m.readOnly
  {
    SplitAtFirstNone(field, '=');
    var key := Lower(field);
    FlagSpellingsNameFlags(key);
    assert KeyOf(field) == key && ValueOf(field).None?;
    if key in {"readonly", "ro"} {
      assert KeyNamed(key) == Some(ReadOnlyKey);
    } else if key == "volume-nocopy" {
      assert KeyNamed(key) == Some(VolumeNoCopyKey);
    }
  }

  /**
   * A field splits at its first `=`: the key before it is lower-cased, the value
   * after it is kept verbatim, further `=` included.
   */
  lemma KeyValueSplit(key: string, value: string)
    requires '=' !in key
    ensures KeyOf(key + "=" + value) == Lower(key)
    ensures ValueOf(key + "=" + value) == Some(value)
    ensures KeyKind(key + "=" + value) == KeyNamed(Lower(key))
  {
    SplitAtFirstJoined(key, '=', value);
  }

  /** An unknown key is rejected, the error naming the lower-cased key and the field as given. */
  lemma UnknownKey(m: Mount, key: string, value: string, ramInBytes: string -> Option<int64>)
    requires '=' !in key && KeyNamed(Lower(key)).None?
    ensures ApplyField(m, key + "=" + value, ramInBytes) == Err(UnexpectedKey(Lower(key), key + "=" + value))
  {
    KeyValueSplit(key, value);
  }

  /** Keys match case-insensitively: two spellings of a known key differing only in case act alike. */
  lemma KeysIgnoreCase(m: Mount, key1: string, key2: string, value: string, ramInBytes: string -> Option<int64>)
    requires '=' !in key1 && '=' !in key2 && Lower(key1) == Lower(key2)
    requires KeyNamed(Lower(key1)).Some?
    ensures ApplyField(m, key1 + "=" + value, ramInBytes) == ApplyField(m, key2 + "=" + value, ramInBytes)
  {
    KeyValueSplit(key1, value);
    KeyValueSplit(key2, value);
  }

  /**
   * max-iops takes whatever Atoi reads, sign included, and stores it as uint64:
   * a negative count wraps around to a huge one.
   */
  lemma MaxIopsWraps(m: Mount, value: string, n: int64, ramInBytes: string -> Option<int64>)
    requires Atoi(value) == Some(n)
    ensures ApplyField(m, "max-iops" + "=" + value, ramInBytes) == Ok(m.(maxIOps := ToUint64(n)))
    ensures n < 0 ==> ToUint64(n) as int == n as int + TwoTo64
  {
    KeyValueSplit("max-iops", value);
    LowerOfLower("max-iops");
  }
}
