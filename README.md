# The `--mount` option parser

A Dafny model of `MountOpt`, the value type behind the repeatable `--mount`
command-line flag (`opts/mount.go`). Each call of `Set` takes one option
value such as `type=bind,source=/a,target=/b,ro` and does the following:

- It tokenises the value as one CSV record.
- It walks the fields in order, starting from a mount of type `volume`.
- It splits each field at its first `=` and lower-cases the key.
- It applies each field to the mount being built. The nested volume options
  (with their driver configuration), bind options and driver-option map are
  allocated lazily, when their first key appears.
- It runs the cross-field checks: the type is non-empty, the target is
  non-empty, a `bind` mount has no volume options and a `volume` mount has
  no bind options.
- On success it appends the mount to the accumulated list. On any error the
  list is left as it was.

`String` shows the list as `type source target` entries joined by `", "`.
`Value` returns the list.

Layout:

- `wrappers.dfy`: `Option` and `Result`.
- `go_strings.dfy`: the parts of Go's `strings` package the parser uses: `ToLower` (ASCII), `SplitN(s, "=", 2)` and `Join`.
- `go_ints.dfy`: Go's `int64` and `uint64` as ranges of the unbounded integers.
- `go_strconv.dfy`: the parts of Go's `strconv` package the parser uses:
  - `ParseBool`, with its twelve spellings written out;
  - `Atoi`, on a 64-bit `int`;
  - the `uint64(...)` conversion, which wraps modulo 2^64.
- `mount_types.dfy`: the `Mount`, `VolumeOptions`, `BindOptions` and `Driver` records, and the `volume`/`bind` type names.
- `mount_opt.dfy`: the parser itself.
  - `ApplyField`, `ApplyFields`, `Validate`, `ParseFields` and `Parse` are pure definitions of what `Set` computes.
  - `SetField` is the body of `Set`'s loop, written the way the loop writes it.
  - `MountOpt` is a class holding `values: seq<Mount>`. Its `Set` runs the loop over the fields and is proved to compute `Parse`. Its `String` is proved to compute `Rendered`.
- `mount_properties.dfy`: what a parse promises in terms of the fields:
  - last write wins for single-valued keys;
  - `volume-label` and `volume-opt` accumulate into maps;
  - nested options exist exactly when one of their keys appears;
  - the outcome of the final checks.
- `field_properties.dfy`: what one field does:
  - which fields fail, and with which error;
  - the split at the first `=`;
  - case-insensitive keys;
  - bare flags;
  - wrap-around of `max-iops`.

Behaviour of the code worth knowing:

- `max-iops` accepts a signed number, and a negative one wraps around instead of being rejected.
- A value-less field with a known non-flag key, and a value-less field with an unknown key, both fail as "must be a key=value pair".
- `type=` with an empty value does reach "type is required".
- The target check runs before the option-mixing checks. So `type=bind,volume-label=x` without a target fails with "target is required", not with the mixing error.

Errors are a datatype, `SetError`, carrying the key, field or value the message would name.

## Model

| member | source | states |
|---|---|---|
| GoStrings.Lower | opts/mount.go:60 | the result has the input's length, lower-cases each ASCII letter and leaves no upper-case letter |
| GoStrings.LowerOfLower | opts/mount.go:60 | lower-casing text without upper-case letters leaves it unchanged |
| GoStrings.LowerIdempotent | opts/mount.go:60 | lower-casing twice is lower-casing once |
| GoStrings.SplitAtFirst | opts/mount.go:48 | the part before the separator contains none; with no separator the whole string is the key, otherwise key, separator and value rebuild the input |
| GoStrings.SplitAtFirstJoined | opts/mount.go:59 | splitting `key=value` with no `=` in key gives back exactly key and value, whatever `value` contains |
| GoStrings.SplitAtFirstNone | opts/mount.go:49-50 | a string without `=` splits into itself and no value |
| GoStrings.Join | opts/mount.go:155 | the parts in order with the separator between neighbours, "" for no parts; JoinAppend states how it grows |
| GoStrings.JoinAppend | opts/mount.go:155 | joining one more part appends the separator and the part |
| GoStrconv.ParseBool | opts/mount.go:86 | true exactly for 1 t T TRUE true True, false exactly for 0 f F FALSE false False, an error otherwise |
| GoStrconv.Atoi | opts/mount.go:98 | accepted text is an optional sign followed by digits only, ending in a digit (a lone sign is rejected); a leading `-` gives a value at most zero, otherwise at least zero |
| GoStrconv.FormatDecimal | opts/mount.go:98 | decimal text is non-empty and all digits |
| GoStrconv.DecimalValueOfFormat | opts/mount.go:98 | reading back the decimal text of n gives n |
| GoStrconv.AtoiItoa | opts/mount.go:98 | Atoi reads back every 64-bit integer written in decimal, negative ones included |
| GoStrconv.ToUint64 | opts/mount.go:96-102 | the conversion agrees with its input modulo 2^64 and keeps non-negative inputs |
| MountOpts.KeyNamed | opts/mount.go:63-120 | the accepted key spellings and the key each one sets; anything else is unknown (`FlagSpellingsNameFlags`, `UnknownKey` and `KeysIgnoreCase` state what this means for a field) |
| MountOpts.KeyOf | opts/mount.go:59-60 | the lower-cased text before a field's first `=`; `KeyValueSplit` states it for every `key=value` field |
| MountOpts.ValueOf | opts/mount.go:59-77 | the text after a field's first `=`, verbatim; `KeyValueSplit` and `BareField` state it |
| MountOpts.SetValueOnMap | opts/mount.go:47-54 | the `setValueOnMap` closure; `SubValueWithEquals` and `SubValueWithoutEquals` state its effect for sub-values with and without `=` |
| MountOpts.ApplyField | opts/mount.go:58-121 | one pass of the loop on the mount built so far; `FieldOutcome` says when it fails and with what error, the `ApplyField*` lemmas what it changes, and `SetField` is proved to compute it |
| MountOpts.ApplyKeyValue | opts/mount.go:77-121 | the `key=value` branch of the loop: a known key's effect, or the unexpected-key error; `SetKeyOutcome` states when it fails |
| MountOpts.SetKey | opts/mount.go:78-118 | each known key's effect; `SetKeyScalars`, `SetKeyOptions` and `SetKeyMaps` state what it changes and what it leaves |
| MountOpts.ApplyFields | opts/mount.go:56-122 | the loop from the default mount (`DefaultMount`: type "volume", everything else empty), stopping at the first error; `FieldsOutcome` and the last-write-wins, allocation and map lemmas state its result |
| MountOpts.ParseFields | opts/mount.go:56-139 | the loop followed by the final checks; `ParseFieldsOutcome` and `ParsedMountIsValid` state its outcome in terms of the fields |
| MountOpts.Parse | opts/mount.go:19-139 | a reader error is passed on, otherwise the fields are parsed; `MountOpt.Set` is proved to follow it |
| MountOpts.Entry | opts/mount.go:152 | one mount shown as type, source and target separated by blanks |
| MountOpts.Entries | opts/mount.go:150-154 | one entry per mount, in order; `MountOpt.String`'s loop is proved to build it |
| MountOpts.Rendered | opts/mount.go:149-156 | the entries joined by `", "`; `MountOpt.String` computes it and `RenderedAppend` states how it grows with each append |
| MountOpts.VolumeOptionsOf | opts/mount.go:28-38 | the result always has a driver configuration; fresh options are empty; existing options keep their no-copy flag and labels, and are returned unchanged once allocated |
| MountOpts.BindOptionsOf | opts/mount.go:40-45 | existing bind options are returned unchanged, fresh ones have no propagation |
| MountOpts.Validate | opts/mount.go:124-137 | a mount passes exactly when its type and target are non-empty, a bind mount has no volume options and a volume mount no bind options; a mount that passes is returned unchanged |
| MountOpts.SetField | opts/mount.go:58-121 | the loop body, including lazy allocation of the driver-option map, computes the effect of one field |
| MountOpts.MountOpt.constructor | opts/mount.go:13-16 | a new option value holds no mounts |
| MountOpts.MountOpt.Set | opts/mount.go:18-141 | when the value parses, exactly that mount is appended at the end; on any error the error is returned and the list is unchanged |
| MountOpts.MountOpt.String | opts/mount.go:148-156 | the result is the `type source target` entries of the mounts in order, joined by `", "` |
| MountOpts.MountOpt.Value | opts/mount.go:158-161 | the mounts are returned in append order |
| MountProperties.LastSettingLast | opts/mount.go:58 | the last value given to a key is the final field's if it sets the key, else the last one before it |
| MountProperties.SubValueWithEquals | opts/mount.go:47-53 | a `k=v` sub-value maps k to everything after its first `=` and changes nothing else |
| MountProperties.SubValueWithoutEquals | opts/mount.go:49-50 | a sub-value without `=` maps all of it to the empty string |
| MountProperties.ApplyFieldsConcat | opts/mount.go:58-122 | fields are processed strictly in order: applying a + b is applying a, then b, stopping at the first error |
| MountProperties.ApplyFieldsSnoc | opts/mount.go:58-122 | one more field is that field applied to the mount built so far |
| MountProperties.ApplyFieldsLast | opts/mount.go:58-122 | the fields before the last are applied first, then the last one |
| MountProperties.SetKeyScalars | opts/mount.go:78-102 | an accepted `key=value` field changes only its own top-level field: type lower-cased, source and target verbatim, readonly from ParseBool, max-iops from Atoi and max-bandwidth from the size parser, both wrapped to uint64 |
| MountProperties.SetKeyOptions | opts/mount.go:103-113 | volume-* keys allocate volume options, bind-propagation allocates bind options, others allocate nothing; driver configuration stays allocated with the volume options; the driver-option map exists afterwards exactly when it existed before or the key is volume-opt; propagation is lower-cased; volume-driver and volume-nocopy set only their own field |
| MountProperties.SetKeyMaps | opts/mount.go:110-118 | volume-label inserts into the labels and volume-opt into the driver options; no other key touches either map |
| MountProperties.ApplyFieldStrings | opts/mount.go:59-84 | one accepted field sets type (lower-cased), source or target to its value when it names that key, and leaves the others |
| MountProperties.ApplyFieldFlags | opts/mount.go:62-71 | a bare readonly/ro or volume-nocopy sets its flag; with a value the flag is what ParseBool reads; other fields leave both flags |
| MountProperties.ApplyFieldLimits | opts/mount.go:90-102 | max-iops and max-bandwidth take their converted, wrapped value; other fields leave them |
| MountProperties.ApplyFieldOptions | opts/mount.go:28-45 | one accepted field allocates volume options exactly when it names a volume-* key, bind options exactly for bind-propagation, and the driver-option map exactly for volume-opt (or when it already existed); it sets propagation and driver name from their keys only |
| MountProperties.ApplyFieldMaps | opts/mount.go:110-118 | one accepted field inserts its sub-value into labels or driver options when it names that key, and leaves both maps otherwise |
| MountProperties.LastWriteWins | opts/mount.go:79-84 | type, source and target hold the value of the last field setting them (type lower-cased), or their starting values when none does |
| MountProperties.FlagsLastWriteWins | opts/mount.go:62-71 | readonly/ro and volume-nocopy follow their last field, bare (true) or with a ParseBool value |
| MountProperties.LimitsLastWriteWins | opts/mount.go:90-102 | max-iops and max-bandwidth follow their last field; a negative max-iops is stored wrapped |
| MountProperties.OptionsAllocatedLazily | opts/mount.go:28-45 | volume options exist exactly when some field names a volume-* key, bind options exactly when some field names bind-propagation, the driver-option map exactly when some field names volume-opt; driver configuration always accompanies volume options; propagation and driver name follow their last field |
| MountProperties.MapsAccumulate | opts/mount.go:110-118 | labels and driver options are what inserting every volume-label / volume-opt value in order gives, later duplicate sub-keys overwriting earlier ones |
| MountProperties.InsertAllSnoc | opts/mount.go:47-54 | inserting one more sub-value applies it to the map built so far |
| MountProperties.ParseFieldsOutcome | opts/mount.go:56-137 | the result of a parse in terms of the fields alone: the first field error, else "type is required" when the final type is empty, else "target is required" when the last target value is empty or no target field is given, else the bind/volume mixing errors, else the mount; other type names accept both kinds of options |
| MountProperties.ParsedMountIsValid | opts/mount.go:124-139 | every mount `Set` appends has a non-empty type equal to the lower-cased last `type=` value (default volume) and a non-empty target equal to the last target value; a bind mount has no volume options, a volume mount no bind options |
| MountProperties.RenderedAppend | opts/mount.go:149-156 | after one more append, `String` shows the earlier entries, ", " when there are any, and the new entry |
| FieldProperties.FlagSpellingsNameFlags | opts/mount.go:63-69 | the bare-field spellings are exactly the keys naming readonly/ro or volume-nocopy |
| FieldProperties.FieldOutcome | opts/mount.go:62-121 | a field fails exactly when its own key and value call for an error, with that error, whatever mount was built before it |
| FieldProperties.SetKeyOutcome | opts/mount.go:78-121 | a `key=value` field fails only for an unknown key or a value rejected by ParseBool, Atoi or the size parser; volume-nocopy has its own error |
| FieldProperties.FieldsOutcome | opts/mount.go:58-122 | the fields fail exactly when some field is bad, with the error of the first bad one |
| FieldProperties.BareField | opts/mount.go:62-75 | a field without `=` is accepted exactly when it is readonly, ro or volume-nocopy in any case, setting that flag; any other, empty included, fails as not a key=value pair |
| FieldProperties.KeyValueSplit | opts/mount.go:59-60 | a field splits at its first `=`: the key is lower-cased, the value kept verbatim with any further `=` |
| FieldProperties.UnknownKey | opts/mount.go:119-120 | a `key=value` field with an unrecognised key fails, naming the lower-cased key and the field as given |
| FieldProperties.KeysIgnoreCase | opts/mount.go:60 | two spellings of a known key differing only in case have the same effect |
| FieldProperties.MaxIopsWraps | opts/mount.go:97-102 | max-iops takes any Atoi value, sign included; a negative one is stored as itself plus 2^64 |

## Left out

- CSV tokenising (`encoding/csv`) is not part of this model. `Set` receives the reader as a function parameter returning the first record's fields or an error, and passes the error on.
- The size parser of `max-bandwidth` (go-units `RAMInBytes`) is not part of this model. It is a function parameter returning a 64-bit integer or an error.
- The text of the error messages is not modelled. Each error is a `SetError` constructor carrying the key, field or value its message names.
- GoStrings.Lower: lower-cases ASCII letters only, not the full Unicode case mapping of `strings.ToLower`.
- GoStrconv.Atoi: the contract states the accepted syntax and the sign. The value read is pinned down by `AtoiItoa` (the round trip with decimal formatting) rather than by the contract. Go's `int` is taken to be 64 bits wide.
- `MountOpt.Type`: not modelled, because it only returns the constant "mount" for the flag library.
- The `mounttypes` package is not part of this model. Its records appear as datatypes holding only the fields the parser touches. `VolumeOptions` and `BindOptions` are values inside the mount, not shared pointers. The parser only ever reaches them through the mount it is building, so no aliasing is lost inside `Set`.
- MountOpts.MountOpt.Value: returns the list as a value. Go returns the slice itself, so a caller shares the stored mounts and their nested option pointers with the flag value; the model does not capture that sharing.
- Concurrency: the parser has none.
