/**
 * scripts/iot.js: `generateSasToken` and the pure part of
 * `convertIotHubToEventHubsConnectionString`. The network session is
 * replaced by its outcome: the link error the broker answers the
 * discovery probe with is an input, and the whole conversion becomes a
 * function from the parsed fields, the clock and that error to a result.
 */
module IotHubConversion {
  import opened Wrappers
  import opened Text
  import opened SasToken
  import opened AmqpRedirect
  import opened IotHub

  const InvalidConnectionString: string := "Invalid IoT Hub connection string."
  const NoHubName: string := "Unable to extract the IoT Hub name from the connection string."

  /**
   * `Math.ceil(Date.now() / 1000 + expiresInMins * 60)` for a clock reading
   * of `nowMs` milliseconds: the first whole second at or after the moment
   * the token stops being valid.
   */
  function CeilExpiry(nowMs: nat, minutes: nat): (se: nat)
    ensures se * 1000 >= nowMs + minutes * 60000
    ensures se * 1000 < nowMs + minutes * 60000 + 1000
  {
    (nowMs + 999) / 1000 + minutes * 60
  }

  /** `generateSasToken(resourceUri, signingKey, policyName, expiresInMins)` with the clock reading `nowMs`. */
  function GenerateSasToken(prims: Primitives, resourceUri: string, signingKey: string, policyName: string,
                            expiresInMins: nat, nowMs: nat): string
  {
    TokenText(Sign(prims, resourceUri, signingKey, policyName, CeilExpiry(nowMs, expiresInMins)))
  }

  /**
   * The generated token reads back with the encoded resource, the policy
   * name and an expiry no earlier than `expiresInMins` after the clock
   * reading (and less than a second later), and its signature verifies
   * under the signing key.
   */
  lemma GenerateSasTokenSpec(prims: Primitives, resourceUri: string, signingKey: string, policyName: string,
                             expiresInMins: nat, nowMs: nat)
    requires EscapesAmpersand(prims) && '&' !in policyName
    ensures var token := GenerateSasToken(prims, resourceUri, signingKey, policyName, expiresInMins, nowMs);
      && Verifies(prims, token, signingKey)
      && ParseToken(token).Some?
      && ParseToken(token).value.resource == prims.encodeUriComponent(resourceUri)
      && ParseToken(token).value.policy == policyName
      && nowMs + expiresInMins * 60000 <= ParseToken(token).value.expiry * 1000 < nowMs + expiresInMins * 60000 + 1000
  {
    SignedTokenVerifies(prims, resourceUri, signingKey, policyName, CeilExpiry(nowMs, expiresInMins));
  }

  /**
   * Lines 36-67: check the fields, derive the hub name and build the
   * discovery connection; failures here are thrown before any connection
   * is opened.
   */
  function PrepareProbe(fields: ConnectionFields, prims: Primitives, nowMs: nat): (r: Result<Probe, ConvertError>)
    ensures !Complete(fields) ==> r == Failure(Thrown(InvalidConnectionString))
    ensures Complete(fields) && HubName(fields.hostName.value) == "" ==> r == Failure(Thrown(NoHubName))
    ensures r.Success? <==> Complete(fields) && HubName(fields.hostName.value) != ""
  {
    if !Complete(fields) then Failure(Thrown(InvalidConnectionString))
    else
      var host := fields.hostName.value;
      var hub := HubName(host);
      if hub == "" then Failure(Thrown(NoHubName))
      else
        var token := GenerateSasToken(prims, TokenResource(host), fields.sharedAccessKey.value,
                                      fields.sharedAccessKeyName.value, TokenMinutes, nowMs);
        Success(ProbeFor(host, fields.sharedAccessKeyName.value, hub, token))
  }

  /**
   * Lines 53-74: the discovery connection opens TLS to the hub's host and
   * logs in as `<policy>@sas.root.<hub>` on port 5671, without
   * reconnecting, with a token for `<host>/messages/events` that is valid
   * for five minutes and verifies under the shared access key; its
   * receiver asks for `amqps://<host>/messages/events/$management`, the
   * source the broker answers with a redirect.
   */
  lemma ProbeCredentials(fields: ConnectionFields, prims: Primitives, nowMs: nat)
    requires PrepareProbe(fields, prims, nowMs).Success?
    requires EscapesAmpersand(prims) && '&' !in fields.sharedAccessKeyName.value
    ensures var probe := PrepareProbe(fields, prims, nowMs).value;
      var host := fields.hostName.value;
      && probe.host == host && probe.port == 5671 && !probe.reconnect
      && probe.transport == "tls" && probe.hostname == host
      && probe.sourceAddress == "amqps://" + host + "/messages/events/$management"
      && probe.username == fields.sharedAccessKeyName.value + "@sas.root." + HubName(host)
      && '.' !in HubName(host) && host[..|HubName(host)|] == HubName(host)
      && Verifies(prims, probe.password, fields.sharedAccessKey.value)
      && ParseToken(probe.password).value.resource == prims.encodeUriComponent(host + "/messages/events")
      && ParseToken(probe.password).value.expiry * 1000 >= nowMs + 300000
  {
    GenerateSasTokenSpec(prims, TokenResource(fields.hostName.value), fields.sharedAccessKey.value,
                         fields.sharedAccessKeyName.value, TokenMinutes, nowMs);
  }

  /**
   * Lines 78-96, the receiver-error handler: a redirect with a hostname and
   * a parsable address resolves to the redirect target; anything else is
   * rejected. The address is read before the hostname is checked, so a
   * redirect without `info` throws inside the handler: callers never pass one.
   */
  function OnReceiverError(keyName: string, key: string, err: LinkError): (r: Result<EventHubsEndpoint, ConvertError>)
    requires IsRedirect(err) ==> err.info.Some?
    ensures !IsRedirect(err) ==> r == Failure(Rejected(err))
    ensures IsRedirect(err) && !Truthy(err.info.value.hostname) ==> r == Failure(Rejected(err))
    ensures IsRedirect(err) && Truthy(err.info.value.hostname) ==>
      (r.Failure? <==> forall p: nat, q: nat :: !MatchSpan(err.info.value.address, p, q))
    ensures r.Failure? && IsRedirect(err) && Truthy(err.info.value.hostname) ==>
      r == Failure(UnparsableAddress(err.info.value.address))
    ensures r.Success? ==>
      && IsRedirect(err) && Truthy(err.info.value.hostname)
      && r.value.hostname == err.info.value.hostname.value
      && r.value.keyName == keyName && r.value.key == key
      && r.value.entityPath == EntityPathCapture(err.info.value.address).value
  {
    if !IsRedirect(err) then Failure(Rejected(err))
    else
      var info := err.info.value;
      var parsedAddress := EntityPathCapture(info.address);
      if !Truthy(info.hostname) then Failure(Rejected(err))
      else if parsedAddress.None? then Failure(UnparsableAddress(info.address))
      else Success(EventHubsEndpoint(info.hostname.value, parsedAddress.value, keyName, key))
  }

  /** The conversion as a whole: probe, then the handler's verdict, formatted as a connection string. */
  function Convert(fields: ConnectionFields, prims: Primitives, nowMs: nat, err: LinkError): (r: Result<string, ConvertError>)
    requires Complete(fields) && HubName(fields.hostName.value) != "" && IsRedirect(err) ==> err.info.Some?
    ensures PrepareProbe(fields, prims, nowMs).Failure? ==> r == Failure(PrepareProbe(fields, prims, nowMs).error)
  {
    match PrepareProbe(fields, prims, nowMs)
    case Failure(e) => Failure(e)
    case Success(_) =>
      match OnReceiverError(fields.sharedAccessKeyName.value, fields.sharedAccessKey.value, err)
      case Failure(e) => Failure(e)
      case Success(endpoint) => Success(EndpointText(endpoint))
  }

  /**
   * A failed field check decides the outcome on its own: whatever the
   * broker would have answered and whatever the clock says, the
   * conversion throws the same error.
   */
  lemma ConvertFailsBeforeConnecting(fields: ConnectionFields, prims: Primitives, nowMs: nat, err: LinkError,
                                     prims': Primitives, nowMs': nat, err': LinkError)
    requires !Complete(fields) || HubName(fields.hostName.value) == ""
    ensures Convert(fields, prims, nowMs, err) == Convert(fields, prims', nowMs', err')
    ensures Convert(fields, prims, nowMs, err).Failure? && Convert(fields, prims, nowMs, err).error.Thrown?
  {
  }

  /**
   * On success the result reads back as the redirect's hostname, the
   * captured entity path, and the key name and key of the input unchanged.
   */
  lemma ConvertResult(fields: ConnectionFields, prims: Primitives, nowMs: nat, err: LinkError)
    requires Complete(fields) && HubName(fields.hostName.value) != "" && IsRedirect(err) ==> err.info.Some?
    requires Convert(fields, prims, nowMs, err).Success?
    requires ';' !in fields.sharedAccessKeyName.value && ';' !in fields.sharedAccessKey.value
    requires ';' !in err.info.value.hostname.value && ';' !in err.info.value.address
    ensures ParseEndpoint(Convert(fields, prims, nowMs, err).value)
      == Some(EventHubsEndpoint(err.info.value.hostname.value, EntityPathCapture(err.info.value.address).value,
                                fields.sharedAccessKeyName.value, fields.sharedAccessKey.value))
  {
    var endpoint := OnReceiverError(fields.sharedAccessKeyName.value, fields.sharedAccessKey.value, err).value;
    var address := err.info.value.address;
    assert ';' !in endpoint.entityPath by {
      var p: nat, q: nat :| LeftmostGreedy(address, p, q) && endpoint.entityPath == address[p + |Lead|..q];
      forall i | 0 <= i < |endpoint.entityPath| ensures endpoint.entityPath[i] != ';' {
        assert endpoint.entityPath[i] == address[p + |Lead| + i];
      }
    }
    ParseEndpointText(endpoint);
  }
}
