/**
 * Redirect addresses of the shape the IoT Hub returns,
 * `amqps://<host>:5671/<entity>/$management`, run through the
 * entity-path pattern: the capture gives the entity back, including the
 * degenerate empty one on which the two converters disagree.
 */
module RedirectExamples {
  import opened Wrappers
  import opened AmqpRedirect

  function RedirectAddress(host: string, entity: string): string
  {
    "amqps://" + host + ":" + Lead + entity + Trail
  }

  /** The trail as the hub writes it, in lower case, is recognised. */
  lemma TrailAtExact(a: string, q: nat)
    requires q + |Trail| == |a| && a[q..] == Trail
    ensures TrailAt(a, q)
  {
    forall k | 0 <= k < |Trail|
      ensures FoldAscii(a[q + k]) == Trail[k]
    {
      assert a[q + k] == a[q..][k];
    }
  }

  /**
   * For a host name (which never holds a '/') and an entity on one line,
   * the pattern captures exactly the entity: no `5671/` can start before
   * the port, since its '/' would have to fall on one of the two slashes
   * of `amqps://` or inside the host, and the match, being greedy, runs
   * to the trailing `/$management`.
   */
  lemma RedirectAddressCapture(host: string, entity: string)
    requires '/' !in host
    requires forall k :: 0 <= k < |entity| ==> !IsLineTerminator(entity[k])
    ensures EntityPathCapture(RedirectAddress(host, entity)) == Some(entity)
  {
    var prefix := "amqps://" + host + ":";
    var a := RedirectAddress(host, entity);
    var p := |prefix|;
    var q := p + |Lead| + |entity|;
    assert a == prefix + Lead + entity + Trail;
    assert a[p..p + |Lead|] == Lead;
    assert a[p + |Lead|..q] == entity;
    assert a[q..] == Trail;
    TrailAtExact(a, q);
    assert forall k :: p + |Lead| <= k < q ==> a[k] == entity[k - p - |Lead|];
    assert MatchSpan(a, p, q);
    forall p': nat, q': nat | MatchSpan(a, p', q')
      ensures p <= p'
    {
      NoLeadBefore(host, a, p');
    }
    forall q': nat | MatchSpan(a, p, q')
      ensures q' <= q
    {
      assert q' + |Trail| <= |a|;
    }
    assert LeftmostGreedy(a, p, q);
    CaptureOfMatch(a, p, q);
  }

  /** No `5671/` starts inside `amqps://<host>:` when the host holds no '/'. */
  lemma NoLeadBefore(host: string, a: string, p': nat)
    requires '/' !in host
    requires |"amqps://" + host + ":"| <= |a| && a[..|"amqps://" + host + ":"|] == "amqps://" + host + ":"
    requires p' + |Lead| <= |a| && a[p'..p' + |Lead|] == Lead
    ensures |"amqps://" + host + ":"| <= p'
  {
    var prefix := "amqps://" + host + ":";
    var p := |prefix|;
    var lead := a[p'..p' + |Lead|];
    assert a[p'] == lead[0] == '5' && a[p' + 4] == lead[4] == '/';
    assert forall k :: 0 <= k < 4 ==> a[p' + k] == lead[k] != ':';
    assert forall i :: 0 <= i < p ==> a[i] == prefix[i];
    assert forall i :: 8 <= i < p - 1 ==> prefix[i] == host[i - 8] != '/';
    assert prefix[2] == 'q' && prefix[3] == 'p' && prefix[p - 1] == ':';
  }

  /** The usual redirect: the entity path is the segment between the port and `/$management`. */
  lemma NamedCapture()
    ensures EntityPathCapture("amqps://h:5671/my-entity/$management") == Some("my-entity")
  {
    assert RedirectAddress("h", "my-entity") == "amqps://h:5671/my-entity/$management";
    RedirectAddressCapture("h", "my-entity");
  }

  /** A host whose namespace name holds the digit 5 does not disturb the match. */
  lemma DigitHostCapture()
    ensures EntityPathCapture("amqps://ns55.net:5671/hub-5671/$management") == Some("hub-5671")
  {
    assert RedirectAddress("ns55.net", "hub-5671") == "amqps://ns55.net:5671/hub-5671/$management";
    RedirectAddressCapture("ns55.net", "hub-5671");
  }

  /** With nothing between the port and `/$management`, the capture is the empty string (not a failure). */
  lemma UnnamedCapture()
    ensures EntityPathCapture("amqps://h:5671//$management") == Some("")
  {
    assert RedirectAddress("h", "") == "amqps://h:5671//$management";
    RedirectAddressCapture("h", "");
  }
}
