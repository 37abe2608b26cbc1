/**
 * generator.py (JavaScript despite its name): `createSasToken` and
 * `convertToEventHubsCompatibleString`, the same conversion as
 * scripts/iot.js written a second time. It differs in two observable ways:
 * the token expiry is the floored clock plus whole minutes, and an empty
 * entity path is rejected. The lemmas at the end relate the two.
 */
module GeneratorConversion {
  import opened Wrappers
  import opened Text
  import opened SasToken
  import opened AmqpRedirect
  import opened IotHub
  import IotHubConversion

  const InvalidFormat: string := "Invalid IoT Hub connection string format."
  const HubNameExtractionFailed: string := "IoT Hub name extraction failed from the connection string."
  const ParseFailurePrefix: string := "Failed to parse Event Hub name from address: "

  /**
   * `Math.floor(Date.now() / 1000) + tokenValidityMinutes * 60`: the clock
   * in whole seconds, rounded down, plus an exact number of minutes.
   */
  function FloorExpiry(nowMs: nat, minutes: nat): (se: nat)
    ensures se >= minutes * 60
    ensures (se - minutes * 60) * 1000 <= nowMs < (se - minutes * 60) * 1000 + 1000
  {
    nowMs / 1000 + minutes * 60
  }

  /** `createSasToken(resourceUri, signingKey, policyName, tokenValidityMinutes)` with the clock reading `nowMs`. */
  function CreateSasToken(prims: Primitives, resourceUri: string, signingKey: string, policyName: string,
                          tokenValidityMinutes: nat, nowMs: nat): string
  {
    TokenText(Sign(prims, resourceUri, signingKey, policyName, FloorExpiry(nowMs, tokenValidityMinutes)))
  }

  /**
   * The token has the same layout as scripts/iot.js's and verifies under
   * the signing key; its expiry is the floored clock second plus exactly
   * the validity period, so it may lie up to a second short of it.
   */
  lemma CreateSasTokenSpec(prims: Primitives, resourceUri: string, signingKey: string, policyName: string,
                           tokenValidityMinutes: nat, nowMs: nat)
    requires EscapesAmpersand(prims) && '&' !in policyName
    ensures var token := CreateSasToken(prims, resourceUri, signingKey, policyName, tokenValidityMinutes, nowMs);
      && Verifies(prims, token, signingKey)
      && ParseToken(token).Some?
      && ParseToken(token).value.resource == prims.encodeUriComponent(resourceUri)
      && ParseToken(token).value.policy == policyName
      && ParseToken(token).value.expiry == nowMs / 1000 + tokenValidityMinutes * 60
  {
    SignedTokenVerifies(prims, resourceUri, signingKey, policyName, FloorExpiry(nowMs, tokenValidityMinutes));
  }

  /** Lines 35-64: field check, hub name and discovery connection, failing before any connection. */
  function PrepareProbe(fields: ConnectionFields, prims: Primitives, nowMs: nat): (r: Result<Probe, ConvertError>)
    ensures !Complete(fields) ==> r == Failure(Thrown(InvalidFormat))
    ensures Complete(fields) && HubName(fields.hostName.value) == "" ==> r == Failure(Thrown(HubNameExtractionFailed))
    ensures r.Success? <==> Complete(fields) && HubName(fields.hostName.value) != ""
  {
    if !Complete(fields) then Failure(Thrown(InvalidFormat))
    else
      var host := fields.hostName.value;
      var hub := HubName(host);
      if hub == "" then Failure(Thrown(HubNameExtractionFailed))
      else
        var token := CreateSasToken(prims, TokenResource(host), fields.sharedAccessKey.value,
                                    fields.sharedAccessKeyName.value, TokenMinutes, nowMs);
        Success(ProbeFor(host, fields.sharedAccessKeyName.value, hub, token))
  }

  /**
   * Lines 49-70: the discovery connection opens TLS to the hub's host and
   * logs in as `<policy>@sas.root.<hub>` on port 5671, without
   * reconnecting, and its receiver asks for
   * `amqps://<host>/messages/events/$management`, the source the broker
   * answers with a redirect. The password is a token for `<host>/messages/events` that verifies
   * under the shared access key. Its expiry is the floored clock second
   * plus exactly five minutes, so the token may lapse up to a second
   * before five minutes have passed.
   */
  lemma ProbeCredentials(fields: ConnectionFields, prims: Primitives, nowMs: nat)
    requires PrepareProbe(fields, prims, nowMs).Success?
    requires EscapesAmpersand(prims) && '&' !in fields.sharedAccessKeyName.value
    ensures var probe := PrepareProbe(fields, prims, nowMs).value;
      var host := fields.hostName.value;
      && probe.host == host && probe.port == 5671 && !probe.reconnect
      && probe.transport == "tls" && probe.hostname == host
      && probe.sourceAddress == "amqps://" + host + "/messages/events/$management"
      && probe.username == fields.sharedAccessKeyName.value + "@sas.root." + HubName(host)
      && '.' !in HubName(host) && host[..|HubName(host)|] == HubName(host)
      && Verifies(prims, probe.password, fields.sharedAccessKey.value)
      && ParseToken(probe.password).value.resource == prims.encodeUriComponent(host + "/messages/events")
      && ParseToken(probe.password).value.policy == fields.sharedAccessKeyName.value
      && ParseToken(probe.password).value.expiry == nowMs / 1000 + 300
  {
    CreateSasTokenSpec(prims, TokenResource(fields.hostName.value), fields.sharedAccessKey.value,
                       fields.sharedAccessKeyName.value, TokenMinutes, nowMs);
  }

  /**
   * Lines 74-91, the receiver-error handler: like scripts/iot.js's, except
   * that an empty capture is rejected like a missing match, with a thrown
   * message that quotes the address.
   */
  function OnReceiverError(keyName: string, key: string, err: LinkError): (r: Result<EventHubsEndpoint, ConvertError>)
    requires IsRedirect(err) ==> err.info.Some?
    ensures !IsRedirect(err) ==> r == Failure(Rejected(err))
    ensures IsRedirect(err) && !Truthy(err.info.value.hostname) ==> r == Failure(Rejected(err))
    ensures IsRedirect(err) && Truthy(err.info.value.hostname) ==>
      (r.Failure? <==> !Truthy(EntityPathCapture(err.info.value.address)))
    ensures r.Failure? && IsRedirect(err) && Truthy(err.info.value.hostname) ==>
      r == Failure(Thrown(ParseFailurePrefix + err.info.value.address))
    ensures r.Success? ==>
      && r.value.hostname == err.info.value.hostname.value
      && r.value.entityPath != ""
      && r.value.entityPath == EntityPathCapture(err.info.value.address).value
      && r.value.keyName == keyName && r.value.key == key
  {
    if !IsRedirect(err) then Failure(Rejected(err))
    else
      var info := err.info.value;
      var entityPathMatch := EntityPathCapture(info.address);
      if !Truthy(info.hostname) then Failure(Rejected(err))
      else if !Truthy(entityPathMatch) then Failure(Thrown(ParseFailurePrefix + info.address))
      else Success(EventHubsEndpoint(info.hostname.value, entityPathMatch.value, keyName, key))
  }

  /** The conversion as a whole. */
  function Convert(fields: ConnectionFields, prims: Primitives, nowMs: nat, err: LinkError): (r: Result<string, ConvertError>)
    requires Complete(fields) && HubName(fields.hostName.value) != "" && IsRedirect(err) ==> err.info.Some?
    ensures PrepareProbe(fields, prims, nowMs).Failure? ==> r == Failure(PrepareProbe(fields, prims, nowMs).error)
  {
    match PrepareProbe(fields, prims, nowMs)
    case Failure(e) => Failure(e)
    case Success(_) =>
      match OnReceiverError(fields.sharedAccessKeyName.value, fields.sharedAccessKey.value, err)
      case Failure(e) => Failure(e)
      case Success(endpoint) => Success(EndpointText(endpoint))
  }

  /**
   * The two expiries differ by at most one second: they agree exactly when
   * the clock reading is a whole second, and otherwise scripts/iot.js's is
   * one second later.
   */
  lemma ExpiriesCompared(nowMs: nat, minutes: nat)
    ensures IotHubConversion.CeilExpiry(nowMs, minutes)
      == FloorExpiry(nowMs, minutes) + (if nowMs % 1000 == 0 then 0 else 1)
  {
    var c := IotHubConversion.CeilExpiry(nowMs, minutes);
    var f := FloorExpiry(nowMs, minutes);
    if nowMs % 1000 == 0 {
      assert f * 1000 == nowMs + minutes * 60000;
    } else {
      assert (f + 1) * 1000 == f * 1000 + 1000;
    }
  }

  /** Both converters accept and refuse the same connection strings, with their own messages. */
  lemma SameFieldChecks(fields: ConnectionFields, prims: Primitives, nowMs: nat)
    ensures PrepareProbe(fields, prims, nowMs).Success?
      <==> IotHubConversion.PrepareProbe(fields, prims, nowMs).Success?
  {
  }

  /**
   * Whenever generator.py resolves, scripts/iot.js resolves to the same
   * connection string; the only redirect one accepts and the other refuses
   * is the one whose address captures an empty entity path.
   */
  lemma ConvertersCompared(fields: ConnectionFields, prims: Primitives, nowMs: nat, err: LinkError)
    requires Complete(fields) && HubName(fields.hostName.value) != "" && IsRedirect(err) ==> err.info.Some?
    ensures Convert(fields, prims, nowMs, err).Success? ==>
      IotHubConversion.Convert(fields, prims, nowMs, err) == Convert(fields, prims, nowMs, err)
    ensures IotHubConversion.Convert(fields, prims, nowMs, err).Success? && Convert(fields, prims, nowMs, err).Failure?
      <==> Complete(fields) && HubName(fields.hostName.value) != "" && IsRedirect(err)
           && Truthy(err.info.value.hostname) && EntityPathCapture(err.info.value.address) == Some("")
  {
  }
}
