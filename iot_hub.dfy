/**
 * What the two connection-string converters (scripts/iot.js and
 * generator.py) have in common: the fields parsed from an IoT Hub
 * connection string, the hub name, the discovery probe they open, the
 * Event Hubs-compatible connection string they resolve to, and the ways
 * the conversion can fail.
 */
module IotHub {
  import opened Wrappers
  import opened Text
  import opened AmqpRedirect

  /**
   * The output of `parseConnectionString`: each field may be missing. The
   * parser splits its input on ';', so no field contains one.
   */
  datatype ConnectionFields = ConnectionFields(
    hostName: Option<string>,
    sharedAccessKeyName: Option<string>,
    sharedAccessKey: Option<string>)

  /** JavaScript truthiness of an optional string: present and not empty. */
  predicate Truthy(f: Option<string>)
  {
    f.Some? && f.value != ""
  }

  /** All three fields the converters need are present and non-empty. */
  predicate Complete(f: ConnectionFields)
  {
    Truthy(f.hostName) && Truthy(f.sharedAccessKey) && Truthy(f.sharedAccessKeyName)
  }

  /**
   * `HostName.split(".")[0]`: the text of the host name before its first
   * '.', or all of it when it has none.
   */
  function HubName(hostName: string): (hub: string)
    ensures '.' !in hub
    ensures |hub| <= |hostName| && hostName[..|hub|] == hub
    ensures |hub| == |hostName| || hostName[|hub|] == '.'
    ensures hub == "" <==> hostName == "" || hostName[0] == '.'
  {
    var parts := Split(hostName, '.');
    JoinStartsWithFirst(parts, '.');
    parts[0]
  }

  const AmqpsPort: nat := 5671
  const TokenMinutes: nat := 5

  /** The resource the discovery token is signed for. */
  function TokenResource(hostName: string): string
  {
    hostName + "/messages/events"
  }

  /**
   * The options of the discovery connection and the source address of its
   * receiver: TLS to the hub's own host on port 5671, SAS user name
   * `<policy>@sas.root.<hub>`, the token as password, no reconnection.
   */
  datatype Probe = Probe(
    transport: string,
    host: string,
    hostname: string,
    username: string,
    port: nat,
    reconnect: bool,
    password: string,
    sourceAddress: string)

  function ProbeFor(hostName: string, keyName: string, hubName: string, token: string): Probe
  {
    Probe("tls", hostName, hostName, keyName + "@sas.root." + hubName, AmqpsPort, false, token,
          "amqps://" + hostName + "/messages/events/$management")
  }

  /** Where the events can be read: the redirect's host and entity path, with the hub's own policy and key. */
  datatype EventHubsEndpoint = EventHubsEndpoint(hostname: string, entityPath: string, keyName: string, key: string)

  const EndpointLabels: seq<string> := ["Endpoint=sb://", "EntityPath=", "SharedAccessKeyName=", "SharedAccessKey="]

  /** `Endpoint=sb://<hostname>/;EntityPath=<path>;SharedAccessKeyName=<name>;SharedAccessKey=<key>` */
  function EndpointText(e: EventHubsEndpoint): string
  {
    Labelled(EndpointLabels, [e.hostname + "/", e.entityPath, e.keyName, e.key], ';')
  }

  /** Reads an Event Hubs connection string laid out as `EndpointText` lays it out. */
  function ParseEndpoint(s: string): Option<EventHubsEndpoint>
  {
    match Unlabel(s, EndpointLabels, ';')
    case None => None
    case Some(v) =>
      if |v[0]| >= 1 && v[0][|v[0]| - 1] == '/'
      then Some(EventHubsEndpoint(v[0][..|v[0]| - 1], v[1], v[2], v[3]))
      else None
  }

  /** No field of the endpoint contains the ';' that separates them. */
  predicate Unseparated(e: EventHubsEndpoint)
  {
    ';' !in e.hostname && ';' !in e.entityPath && ';' !in e.keyName && ';' !in e.key
  }

  /** Round trip: the connection string of an endpoint reads back as that endpoint. */
  lemma ParseEndpointText(e: EventHubsEndpoint)
    requires Unseparated(e)
    ensures ParseEndpoint(EndpointText(e)) == Some(e)
  {
    var values := [e.hostname + "/", e.entityPath, e.keyName, e.key];
    assert forall i :: 0 <= i < 4 ==> ';' !in EndpointLabels[i] by {
      assert EndpointLabels[0] == "Endpoint=sb://" && EndpointLabels[1] == "EntityPath=";
      assert EndpointLabels[2] == "SharedAccessKeyName=" && EndpointLabels[3] == "SharedAccessKey=";
    }
    assert ';' !in values[0] by {
      forall i | 0 <= i < |values[0]| ensures values[0][i] != ';' {
        if i < |e.hostname| { assert values[0][i] == e.hostname[i]; }
      }
    }
    LabelledRoundTrip(EndpointLabels, values, ';');
    assert values[0][..|values[0]| - 1] == e.hostname;
  }

  /**
   * How a conversion fails: an `Error` thrown with a message, a rejection
   * with the broker's own link error, or (scripts/iot.js) a rejection
   * naming the address that could not be parsed.
   */
  datatype ConvertError = Thrown(message: string) | Rejected(cause: LinkError) | UnparsableAddress(address: string)
}
