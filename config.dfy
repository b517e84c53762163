/** Client configuration (src/types/config.ts) and `mergeConfig`
    (src/utils/merge-config.ts): validation of the connection url and
    defaulting of every other field with `??`, so `undefined` and `null`
    (both `None` here) take the default and every other value, 0 included, is
    kept. */
module Config {
  import opened Base
  import opened Json
  import opened Errors

  datatype HeartbeatAction = HeartbeatAction(action: string, params: Option<Value>)

  datatype ConnectionConfig = ConnectionConfig(
    url: string,
    token: Option<string>,
    timeout: Option<int>,
    pingInterval: Option<int>,
    heartbeatAction: Option<HeartbeatAction>)

  /** The backoff multiplier is restricted to natural numbers. */
  datatype Backoff = Backoff(initial: int, max: int, multiplier: nat)

  datatype ReconnectConfig = ReconnectConfig(enabled: bool, maxAttempts: int, backoff: Backoff)

  datatype ApiConfig = ApiConfig(timeout: int, retries: int)

  datatype NapLinkConfig = NapLinkConfig(
    connection: ConnectionConfig,
    reconnect: ReconnectConfig,
    loggingLevel: string,
    api: ApiConfig)

  datatype PartialConnection = PartialConnection(
    url: Option<string>,
    token: Option<string>,
    timeout: Option<int>,
    pingInterval: Option<int>,
    heartbeatAction: Option<HeartbeatAction>)

  datatype PartialBackoff = PartialBackoff(initial: Option<int>, max: Option<int>, multiplier: Option<nat>)

  datatype PartialReconnect = PartialReconnect(
    enabled: Option<bool>,
    maxAttempts: Option<int>,
    backoff: Option<PartialBackoff>)

  datatype PartialApi = PartialApi(timeout: Option<int>, retries: Option<int>)

  datatype PartialConfig = PartialConfig(
    connection: Option<PartialConnection>,
    reconnect: Option<PartialReconnect>,
    loggingLevel: Option<string>,
    api: Option<PartialApi>)

  /** `DEFAULT_CONFIG` */
  const DefaultReconnect := ReconnectConfig(true, 10, Backoff(1000, 60000, 2))
  const DefaultLoggingLevel := "info"
  const DefaultApi := ApiConfig(30000, 3)
  const DefaultConnectTimeout := 30000
  const DefaultPingInterval := 30000
  const DefaultHeartbeatAction := HeartbeatAction("get_status", Some(JObj([])))

  function MergeConfig(user: PartialConfig): (r: Result<NapLinkConfig, Failure>)
    ensures r.Err? <==> user.connection.None? || user.connection.value.url.None? || user.connection.value.url.value == ""
    ensures r.Err? ==> r.error == InvalidConfigError("connection.url", "必须提供连接URL")
    ensures r.Ok? ==> (r.value.connection.url == user.connection.value.url.value &&
                       r.value.connection.token == user.connection.value.token)
  {
    if user.connection.None? || user.connection.value.url.None? || user.connection.value.url.value == "" then
      Err(InvalidConfigError("connection.url", "必须提供连接URL"))
    else
      var c := user.connection.value;
      var rc := user.reconnect;
      var bo := if rc.Some? then rc.value.backoff else None;
      Ok(NapLinkConfig(
        ConnectionConfig(
          c.url.value,
          c.token,
          Some(c.timeout.GetOr(DefaultConnectTimeout)),
          Some(c.pingInterval.GetOr(DefaultPingInterval)),
          Some(c.heartbeatAction.GetOr(DefaultHeartbeatAction))),
        ReconnectConfig(
          (if rc.Some? then rc.value.enabled else None).GetOr(DefaultReconnect.enabled),
          (if rc.Some? then rc.value.maxAttempts else None).GetOr(DefaultReconnect.maxAttempts),
          Backoff(
            (if bo.Some? then bo.value.initial else None).GetOr(DefaultReconnect.backoff.initial),
            (if bo.Some? then bo.value.max else None).GetOr(DefaultReconnect.backoff.max),
            (if bo.Some? then bo.value.multiplier else None).GetOr(DefaultReconnect.backoff.multiplier))),
        user.loggingLevel.GetOr(DefaultLoggingLevel),
        ApiConfig(
          (if user.api.Some? then user.api.value.timeout else None).GetOr(DefaultApi.timeout),
          (if user.api.Some? then user.api.value.retries else None).GetOr(DefaultApi.retries))))
  }

  /** A full configuration seen as a user configuration (every field given). */
  function ToPartial(c: NapLinkConfig): PartialConfig {
    PartialConfig(
      Some(PartialConnection(Some(c.connection.url), c.connection.token, c.connection.timeout,
                             c.connection.pingInterval, c.connection.heartbeatAction)),
      Some(PartialReconnect(Some(c.reconnect.enabled), Some(c.reconnect.maxAttempts),
                            Some(PartialBackoff(Some(c.reconnect.backoff.initial), Some(c.reconnect.backoff.max),
                                                Some(c.reconnect.backoff.multiplier))))),
      Some(c.loggingLevel),
      Some(PartialApi(Some(c.api.timeout), Some(c.api.retries))))
  }

  /** Merging is idempotent: `??` keeps every field the first merge defined. */
  lemma MergeIdempotent(user: PartialConfig)
    requires MergeConfig(user).Ok?
    ensures MergeConfig(ToPartial(MergeConfig(user).value)) == MergeConfig(user)
  {
  }

  /** With only a url, every other field takes its documented default. */
  lemma MergeDefaults(url: string)
    requires url != ""
    ensures var r := MergeConfig(PartialConfig(Some(PartialConnection(Some(url), None, None, None, None)), None, None, None));
      && r.Ok?
      && r.value.connection == ConnectionConfig(url, None, Some(30000), Some(30000), Some(HeartbeatAction("get_status", Some(JObj([])))))
      && r.value.reconnect == ReconnectConfig(true, 10, Backoff(1000, 60000, 2))
      && r.value.api == ApiConfig(30000, 3) && r.value.loggingLevel == "info"
  {
  }

  /** An explicit 0, `false` or any other given value is kept, not
      defaulted (`??` replaces only `undefined`). */
  lemma {:induction false} MergeKeepsGivenValues(user: PartialConfig)
    requires MergeConfig(user).Ok?
    ensures var c := user.connection.value; var m := MergeConfig(user).value;
      && (c.timeout.Some? ==> m.connection.timeout == c.timeout)
      && (c.pingInterval.Some? ==> m.connection.pingInterval == c.pingInterval)
      && (c.heartbeatAction.Some? ==> m.connection.heartbeatAction == c.heartbeatAction)
      && (user.api.Some? && user.api.value.timeout.Some? ==> m.api.timeout == user.api.value.timeout.value)
      && (user.api.Some? && user.api.value.retries.Some? ==> m.api.retries == user.api.value.retries.value)
      && (user.loggingLevel.Some? ==> m.loggingLevel == user.loggingLevel.value)
    ensures var m := MergeConfig(user).value; user.reconnect.Some? ==>
      var rc := user.reconnect.value;
      && (rc.enabled.Some? ==> m.reconnect.enabled == rc.enabled.value)
      && (rc.maxAttempts.Some? ==> m.reconnect.maxAttempts == rc.maxAttempts.value)
      && (rc.backoff.Some? ==>
            && (rc.backoff.value.initial.Some? ==> m.reconnect.backoff.initial == rc.backoff.value.initial.value)
            && (rc.backoff.value.max.Some? ==> m.reconnect.backoff.max == rc.backoff.value.max.value)
            && (rc.backoff.value.multiplier.Some? ==> m.reconnect.backoff.multiplier == rc.backoff.value.multiplier.value))
  {
  }

  /** Field by field, a value left out (or a whole section left out) takes
      its default, whatever the other fields say. */
  lemma {:induction false} MergeDefaultsPerField(user: PartialConfig)
    requires MergeConfig(user).Ok?
    ensures var c := user.connection.value; var m := MergeConfig(user).value;
      && (c.timeout.None? ==> m.connection.timeout == Some(DefaultConnectTimeout))
      && (c.pingInterval.None? ==> m.connection.pingInterval == Some(DefaultPingInterval))
      && (c.heartbeatAction.None? ==> m.connection.heartbeatAction == Some(DefaultHeartbeatAction))
      && (user.api.None? || user.api.value.timeout.None? ==> m.api.timeout == DefaultApi.timeout)
      && (user.api.None? || user.api.value.retries.None? ==> m.api.retries == DefaultApi.retries)
      && (user.loggingLevel.None? ==> m.loggingLevel == DefaultLoggingLevel)
    ensures var m := MergeConfig(user).value; var rc := user.reconnect;
      var bo := if rc.Some? then rc.value.backoff else None;
      && (rc.None? || rc.value.enabled.None? ==> m.reconnect.enabled == DefaultReconnect.enabled)
      && (rc.None? || rc.value.maxAttempts.None? ==> m.reconnect.maxAttempts == DefaultReconnect.maxAttempts)
      && (bo.None? || bo.value.initial.None? ==> m.reconnect.backoff.initial == DefaultReconnect.backoff.initial)
      && (bo.None? || bo.value.max.None? ==> m.reconnect.backoff.max == DefaultReconnect.backoff.max)
      && (bo.None? || bo.value.multiplier.None? ==> m.reconnect.backoff.multiplier == DefaultReconnect.backoff.multiplier)
  {
  }
}
