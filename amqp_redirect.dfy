/**
 * The broker's answer to the discovery probe, and the reading of the real
 * entity path out of it. The probe link is refused with the AMQP 1.0
 * `amqp:link:redirect` link error (one of the link-error conditions of
 * AMQP 1.0, part 2 "Transport"), whose info carries the hostname and
 * address to use.
 * Both converters read the address with the regular expression
 * `/5671\/(.*)\/\$management/i`, modelled here exactly.
 */
module AmqpRedirect {
  import opened Wrappers

  const RedirectCondition: string := "amqp:link:redirect"

  /** `error.info`: the redirect target. The hostname may be absent; the address is read unconditionally. */
  datatype RedirectInfo = RedirectInfo(hostname: Option<string>, address: string)

  /** `context.receiver.error`, as far as the handlers look at it. */
  datatype LinkError = LinkError(isAmqpError: bool, condition: string, info: Option<RedirectInfo>)

  /** `isAmqpError(error) && error.condition === "amqp:link:redirect"` */
  predicate IsRedirect(e: LinkError)
  {
    e.isAmqpError && e.condition == RedirectCondition
  }

  /** The literal text before the capture group, and the one after it (compared without case). */
  const Lead: string := "5671/"
  const Trail: string := "/$management"

  /** Characters `.` does not match in a JavaScript regular expression. */
  predicate IsLineTerminator(c: char)
  {
    c == '\n' || c == '\r' || c == '\U{2028}' || c == '\U{2029}'
  }

  /**
   * Case folding of the `i` flag for the characters of the pattern: a
   * non-unicode JavaScript regular expression compares upper-cased
   * characters and never lets a non-ASCII character match an ASCII one,
   * so folding the ASCII letters is all there is.
   */
  function FoldAscii(c: char): char
  {
    if 'A' <= c <= 'Z' then (c as int - 'A' as int + 'a' as int) as char else c
  }

  /** `/$management`, in any letter case, starts at position `q` of `a`. */
  predicate TrailAt(a: string, q: nat)
  {
    q + |Trail| <= |a| && forall k :: 0 <= k < |Trail| ==> FoldAscii(a[q + k]) == Trail[k]
  }

  /**
   * The regular expression matches `a[p..q + |Trail|]` with the capture
   * `a[p + |Lead|..q]`: `5671/` at `p`, `/$management` at `q`, and no line
   * terminator in between for `.*` to cross.
   */
  ghost predicate MatchSpan(a: string, p: nat, q: nat)
  {
    && p + |Lead| <= q
    && TrailAt(a, q)
    && a[p..p + |Lead|] == Lead
    && forall k :: p + |Lead| <= k < q ==> !IsLineTerminator(a[k])
  }

  /**
   * The match `String.prototype.match` reports: the leftmost start, and for
   * it the longest run of `.*` (greedy).
   */
  ghost predicate LeftmostGreedy(a: string, p: nat, q: nat)
  {
    && MatchSpan(a, p, q)
    && (forall p': nat, q': nat :: MatchSpan(a, p', q') ==> p <= p')
    && (forall q': nat :: MatchSpan(a, p, q') ==> q' <= q)
  }

  /** The first line terminator at or after `i`, or the end of `a`. */
  function LineEnd(a: string, i: nat): (j: nat)
    requires i <= |a|
    ensures i <= j <= |a|
    ensures j < |a| ==> IsLineTerminator(a[j])
    ensures forall k :: i <= k < j ==> !IsLineTerminator(a[k])
    decreases |a| - i
  {
    if i == |a| || IsLineTerminator(a[i]) then i else LineEnd(a, i + 1)
  }

  /** The greatest `q` in `[lo, hi]` at which the trail starts, found by backtracking down from `hi`. */
  function LastTrail(a: string, lo: nat, hi: nat): (r: Option<nat>)
    ensures r.Some? ==> lo <= r.value <= hi && TrailAt(a, r.value)
    ensures r.Some? ==> forall q :: r.value < q <= hi ==> !TrailAt(a, q)
    ensures r.None? ==> forall q :: lo <= q <= hi ==> !TrailAt(a, q)
    decreases hi
  {
    if hi < lo then None
    else if TrailAt(a, hi) then Some(hi)
    else if hi == lo then None
    else LastTrail(a, lo, hi - 1)
  }

  /** With `5671/` at `p`, a trail at `q` closes a match exactly when `q` lies between the lead and the line's end. */
  lemma MatchSpanIff(a: string, p: nat, q: nat)
    requires p + |Lead| <= |a| && a[p..p + |Lead|] == Lead
    ensures MatchSpan(a, p, q) <==> p + |Lead| <= q <= LineEnd(a, p + |Lead|) && TrailAt(a, q)
  {
  }

  /** The leftmost match starting at `p` or later, as the pair (start of `5671/`, start of `/$management`). */
  function MatchFrom(a: string, p: nat): (r: Option<(nat, nat)>)
    ensures r.Some? ==> p <= r.value.0 && LeftmostGreedyFrom(a, p, r.value.0, r.value.1)
    ensures r.None? ==> forall p': nat, q': nat :: p <= p' && MatchSpan(a, p', q') ==> false
    decreases |a| - p
  {
    if p + |Lead| > |a| then
      None
    else if a[p..p + |Lead|] != Lead then
      MatchFrom(a, p + 1)
    else
      var end := LineEnd(a, p + |Lead|);
      match LastTrail(a, p + |Lead|, end)
      case Some(q) =>
        assert LeftmostGreedyFrom(a, p, p, q) by {
          MatchSpanIff(a, p, q);
          forall q': nat | MatchSpan(a, p, q') ensures q' <= q { MatchSpanIff(a, p, q'); }
        }
        Some((p, q))
      case None =>
        assert forall q': nat :: !MatchSpan(a, p, q') by {
          forall q': nat ensures !MatchSpan(a, p, q') { MatchSpanIff(a, p, q'); }
        }
        MatchFrom(a, p + 1)
  }

  /** `(p, q)` is the leftmost-greedy match among those starting at `from` or later. */
  ghost predicate LeftmostGreedyFrom(a: string, from: nat, p: nat, q: nat)
  {
    && MatchSpan(a, p, q)
    && (forall p': nat, q': nat :: from <= p' && MatchSpan(a, p', q') ==> p <= p')
    && (forall q': nat :: MatchSpan(a, p, q') ==> q' <= q)
  }

  /**
   * `address.match(/5671\/(.*)\/\$management/i)`, reduced to its capture
   * group: None when there is no match, otherwise the text `.*` captured
   * in the leftmost, greedy match (possibly empty).
   */
  function EntityPathCapture(address: string): (r: Option<string>)
    ensures r.None? <==> forall p: nat, q: nat :: !MatchSpan(address, p, q)
    ensures r.Some? ==> exists p: nat, q: nat :: LeftmostGreedy(address, p, q) && r.value == address[p + |Lead|..q]
  {
    match MatchFrom(address, 0)
    case None => None
    case Some((p, q)) =>
      assert LeftmostGreedy(address, p, q);
      Some(address[p + |Lead|..q])
  }

  /** There is only one leftmost-greedy match, so the capture is well defined. */
  lemma LeftmostGreedyUnique(a: string, p1: nat, q1: nat, p2: nat, q2: nat)
    requires LeftmostGreedy(a, p1, q1) && LeftmostGreedy(a, p2, q2)
    ensures p1 == p2 && q1 == q2
  {
  }

  /** Conversely, the leftmost-greedy match determines the capture. */
  lemma CaptureOfMatch(a: string, p: nat, q: nat)
    requires LeftmostGreedy(a, p, q)
    ensures EntityPathCapture(a) == Some(a[p + |Lead|..q])
  {
    var r := EntityPathCapture(a);
    var p': nat, q': nat :| LeftmostGreedy(a, p', q') && r.value == a[p' + |Lead|..q'];
    LeftmostGreedyUnique(a, p, q, p', q');
  }
}
