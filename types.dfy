/** The tunnel definition, the registry records and their serialisable forms, and the
    error taxonomy shared by every component. */
module Types {
  import opened Wrappers

  /** Process ids are `u32` in the source. */
  type Pid = x: int | 0 <= x < 0x1_0000_0000

  /** A monotonic clock reading (`std::time::Instant`), in milliseconds. */
  type Instant = nat

  /** The backend that realises a tunnel. */
  datatype ForwardType = Kubectl | Ssh

  /** The tunnel definition (`PortForwardConfig`). */
  datatype PortForwardConfig = PortForwardConfig(
    name: string,
    context: string,
    namespace: string,
    service: string,
    ports: seq<string>,
    localInterface: Option<string>,
    forwardType: ForwardType)

  /** A registry record: pid, the owning config and when it was recorded (`ProcessInfo`). */
  datatype ProcessInfo = ProcessInfo(pid: Pid, config: PortForwardConfig, startedAt: Instant)

  /** The persisted form of a registry record (`SerializableProcessInfo`). */
  datatype SerializableProcessInfo = SerializableProcessInfo(pid: Pid, config: PortForwardConfig)

  /** The persisted registry (`ProcessManagerState`). */
  datatype ProcessManagerState = ProcessManagerState(processes: map<string, SerializableProcessInfo>)

  /** The error taxonomy (`AppError`); `ConfigError` is `AppError::Config` and so on.
      Each variant carries its message. */
  datatype AppError =
    | ConfigError(msg: string)
    | KubectlError(msg: string)
    | PortForwardError(msg: string)
    | ProcessError(msg: string)
    | SystemError(msg: string)
    | NotFound(msg: string)
    | InvalidInput(msg: string)

  /** `ForwardType::default()`. */
  function DefaultForwardType(): (t: ForwardType)
    ensures t == Kubectl
  {
    Kubectl
  }

  /** `ProcessManagerState::default()`. */
  function DefaultState(): (s: ProcessManagerState)
    ensures |s.processes| == 0
  {
    ProcessManagerState(map[])
  }

  /** `From<&ProcessInfo> for SerializableProcessInfo`: drops the timestamp. */
  function ToSerializable(info: ProcessInfo): (s: SerializableProcessInfo)
    ensures s.pid == info.pid && s.config == info.config
  {
    SerializableProcessInfo(info.pid, info.config)
  }

  /** `From<SerializableProcessInfo> for ProcessInfo`: the timestamp is the current
      instant `now`, not the one the record was first made at. */
  function FromSerializable(s: SerializableProcessInfo, now: Instant): (info: ProcessInfo)
    ensures info.pid == s.pid && info.config == s.config && info.startedAt == now
  {
    ProcessInfo(s.pid, s.config, now)
  }

  /** Both conversions in turn keep pid and config and restart the clock. */
  lemma SerializeRoundTrip(info: ProcessInfo, now: Instant)
    ensures FromSerializable(ToSerializable(info), now) == info.(startedAt := now)
    ensures ToSerializable(FromSerializable(ToSerializable(info), now)) == ToSerializable(info)
  {
  }

  // ---------------------------------------------------------------------------
  // The serialised form of a config: a record whose `#[serde(default)]` fields may be absent.

  /** A field of a serialised record: missing, or present with a value. */
  datatype Field<T> = Absent | Present(value: T)

  /** The fields of a config as they appear in a serialised document. */
  datatype ConfigRecord = ConfigRecord(
    name: string,
    context: string,
    namespace: string,
    service: string,
    ports: seq<string>,
    localInterface: Field<Option<string>>,
    forwardType: Field<ForwardType>)

  function FieldOr<T>(f: Field<T>, default: T): T {
    match f
    case Absent => default
    case Present(v) => v
  }

  /** Deserialisation: a missing `local_interface` is `None`, a missing `forward_type`
      is the default backend. */
  function Deserialize(rec: ConfigRecord): (c: PortForwardConfig)
    ensures rec.localInterface.Absent? ==> c.localInterface.None?
    ensures rec.forwardType.Absent? ==> c.forwardType == Kubectl
    ensures rec.localInterface.Present? ==> c.localInterface == rec.localInterface.value
    ensures rec.forwardType.Present? ==> c.forwardType == rec.forwardType.value
    ensures (c.name, c.context, c.namespace, c.service, c.ports)
         == (rec.name, rec.context, rec.namespace, rec.service, rec.ports)
  {
    PortForwardConfig(rec.name, rec.context, rec.namespace, rec.service, rec.ports,
                      FieldOr(rec.localInterface, None), FieldOr(rec.forwardType, DefaultForwardType()))
  }

  /** Serialisation writes every field. */
  function Serialize(c: PortForwardConfig): ConfigRecord {
    ConfigRecord(c.name, c.context, c.namespace, c.service, c.ports,
                 Present(c.localInterface), Present(c.forwardType))
  }

  /** A serialised config reads back as itself. */
  lemma DeserializeSerialize(c: PortForwardConfig)
    ensures Deserialize(Serialize(c)) == c
  {
  }

  /** The variant names under which serde writes a `ForwardType`. */
  function ForwardTypeName(t: ForwardType): string {
    match t
    case Kubectl => "Kubectl"
    case Ssh => "Ssh"
  }

  function ParseForwardTypeName(s: string): Option<ForwardType> {
    if s == "Kubectl" then Some(Kubectl)
    else if s == "Ssh" then Some(Ssh)
    else None
  }

  lemma ForwardTypeNameRoundTrip(t: ForwardType, s: string)
    ensures ParseForwardTypeName(ForwardTypeName(t)) == Some(t)
    ensures ParseForwardTypeName(s) == Some(t) ==> s == ForwardTypeName(t)
  {
  }
}
