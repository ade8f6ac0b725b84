/** Printing and parsing of stored Slack reply routes (integrations/slack.py). */
module SlackRoutes {
  import opened Wrappers

  datatype SlackRoute = SlackRoute(channel: string, thread: Option<string>)

  const PREFIX := "slack-v1:"
  const LEGACY_PREFIX := "channel:"
  const NO_THREAD := "_"
  const MAX_STORED_LENGTH := 200

  predicate IsAlphanumeric(c: char) {
    'A' <= c <= 'Z' || 'a' <= c <= 'z' || '0' <= c <= '9'
  }

  predicate IsComponent(s: string) {
    && 1 <= |s| <= 100 && IsAlphanumeric(s[0])
    && forall i :: 0 <= i < |s| ==> IsAlphanumeric(s[i]) || s[i] in "._-"
  }

  /** An opaque id: not empty, not too long, no control characters. */
  predicate IsOpaque(s: string) {
    1 <= |s| <= 255 && forall i :: 0 <= i < |s| ==> ' ' <= s[i] && s[i] != '\U{007f}'
  }

  predicate ValidRoute(r: SlackRoute) {
    IsOpaque(r.channel) && (r.thread.Some? ==> IsOpaque(r.thread.value))
  }

  function Printed(r: SlackRoute): string {
    PREFIX + r.channel + ":" + (if r.thread.Some? then r.thread.value else NO_THREAD)
  }

  /** `safe` says that redaction leaves a component alone. */
  function Encode(r: SlackRoute, safe: string -> bool): Result<string> {
    if !IsComponent(r.channel) || !safe(r.channel) then Err(Invalid)
    else if r.thread.Some? && (!IsComponent(r.thread.value) || !safe(r.thread.value)) then Err(Invalid)
    else if |Printed(r)| > MAX_STORED_LENGTH then Err(Invalid)
    else Ok(Printed(r))
  }

  datatype Parts = Parts(before: string, found: bool, after: string)

  /** Split at the first colon. */
  function Partition(s: string): (p: Parts)
    ensures ':' !in p.before
    ensures p.found ==> s == p.before + ":" + p.after
    ensures !p.found ==> p.before == s && p.after == ""
  {
    if s == "" then Parts("", false, "")
    else if s[0] == ':' then Parts("", true, s[1..])
    else
      var rest := Partition(s[1..]);
      Parts([s[0]] + rest.before, rest.found, rest.after)
  }

  function Legacy(channel: string): Result<SlackRoute> {
    if IsOpaque(channel) then Ok(SlackRoute(channel, None)) else Err(Invalid)
  }

  function Decode(target: string): Result<SlackRoute> {
    if PREFIX <= target then
      var p := Partition(target[|PREFIX|..]);
      if !p.found || !IsComponent(p.before) || (p.after != NO_THREAD && !IsComponent(p.after)) then Err(Invalid)
      else Ok(SlackRoute(p.before, if p.after == NO_THREAD then None else Some(p.after)))
    else if LEGACY_PREFIX <= target then Legacy(target[|LEGACY_PREFIX|..])
    else Legacy(target)
  }

  lemma {:induction false} PartitionUnique(a: string, b: string)
    requires ':' !in a
    ensures Partition(a + ":" + b) == Parts(a, true, b)
    decreases |a|
  {
    var s := a + ":" + b;
    if a == "" {
      assert s[0] == ':' && s[1..] == b;
    } else {
      assert s[0] == a[0] && s[1..] == a[1..] + ":" + b;
      PartitionUnique(a[1..], b);
      assert [a[0]] + a[1..] == a;
    }
  }

  lemma ComponentsHaveNoColon(s: string)
    requires IsComponent(s)
    ensures ':' !in s && s != NO_THREAD && IsOpaque(s)
  {
  }

  /** Whatever encode accepts, decode gives back: an absent thread stays absent, a present one present. */
  lemma RoundTrip(r: SlackRoute, safe: string -> bool)
    requires Encode(r, safe).Ok?
    ensures Decode(Encode(r, safe).value) == Ok(r)
  {
    var thread := if r.thread.Some? then r.thread.value else NO_THREAD;
    ComponentsHaveNoColon(r.channel);
    if r.thread.Some? {
      ComponentsHaveNoColon(r.thread.value);
    }
    var target := Printed(r);
    assert target[|PREFIX|..] == r.channel + ":" + thread;
    PartitionUnique(r.channel, thread);
  }

  /** A current-format target that decodes is exactly the printed form of what it decodes to, and decodes
      to a valid route. */
  lemma DecodeIsCanonical(target: string)
    requires PREFIX <= target && Decode(target).Ok?
    ensures Printed(Decode(target).value) == target && ValidRoute(Decode(target).value)
  {
    var p := Partition(target[|PREFIX|..]);
    assert target == PREFIX + target[|PREFIX|..];
    ComponentsHaveNoColon(p.before);
    if p.after != NO_THREAD {
      ComponentsHaveNoColon(p.after);
    }
  }

  /** So two current-format targets that decode to one route are one string, and encoding a decoded route
      is refused only for a component redaction would change, or for length. */
  lemma TargetsAreUnique(a: string, b: string, safe: string -> bool)
    requires PREFIX <= a && PREFIX <= b && Decode(a).Ok?
    ensures Decode(b) == Decode(a) <==> a == b
    ensures |a| <= MAX_STORED_LENGTH && (forall s :: safe(s)) ==> Encode(Decode(a).value, safe) == Ok(a)
  {
    DecodeIsCanonical(a);
    if Decode(b) == Decode(a) {
      DecodeIsCanonical(b);
    }
  }
}
