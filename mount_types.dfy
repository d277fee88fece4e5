/**
 * The mount record the parser fills in. Go pointers that may be nil become
 * `Option` values; a Go `map` that is never nil here becomes a `map`.
 */
module MountTypes {
  import opened Wrappers
  import opened GoInts

  const TypeVolume: string := "volume"
  const TypeBind: string := "bind"

  datatype Driver = Driver(name: string, options: Option<map<string, string>>)

  datatype VolumeOptions = VolumeOptions(noCopy: bool, labels: map<string, string>, driverConfig: Option<Driver>)

  datatype BindOptions = BindOptions(propagation: string)

  datatype Mount = Mount(
    mountType: string,
    source: string,
    target: string,
    readOnly: bool,
    bindOptions: Option<BindOptions>,
    volumeOptions: Option<VolumeOptions>,
    maxBandwidth: uint64,
    maxIOps: uint64)

  /** The parser only ever allocates volume options together with their driver configuration. */
  predicate WellFormed(m: Mount) {
    m.volumeOptions.Some? ==> m.volumeOptions.value.driverConfig.Some?
  }
}
