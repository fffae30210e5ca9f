/** The allow-list filter that picks, from the headers of an inbound request,
    the distributed-tracing headers a service copies onto its outbound call.
    The client and the proxy service each carry an identical copy of it. */
module TraceHeaders {

  /** An inbound header as the framework enumerates it: (name, value). The
      sequence keeps arrival order and may repeat a name. */
  type Header = (string, string)

  /** ASCII lower-casing of a single character. */
  function LowerChar(c: char): char {
    if 'A' <= c <= 'Z' then (c as int + 32) as char else c
  }

  /** ASCII lower-casing of a header name. Field names are case-insensitive
      (section 5.1 of RFC 9110), so the filter compares lower-cased names. */
  function ToLower(s: string): (r: string)
    ensures |r| == |s|
    ensures forall i :: 0 <= i < |r| ==> !('A' <= r[i] <= 'Z')
    ensures forall i :: 0 <= i < |s| && !('A' <= s[i] <= 'Z') ==> r[i] == s[i]
    ensures forall i :: 0 <= i < |s| && 'A' <= s[i] <= 'Z' ==> r[i] == (s[i] as int + 32) as char
  {
    seq(|s|, i requires 0 <= i < |s| => LowerChar(s[i]))
  }

  /** Lower-casing twice is lower-casing once. */
  lemma ToLowerIdempotent(s: string)
    ensures ToLower(ToLower(s)) == ToLower(s)
  {
  }

  /** The nine header names whose values are propagated: Google Cloud trace
      context, W3C Trace Context (traceparent, tracestate), B3 propagation,
      and the Envoy request id. Their values are never parsed. */
  const TraceHeadersToPropagate: set<string> := {
    "x-cloud-trace-context",
    "traceparent",
    "tracestate",
    "x-b3-traceid",
    "x-b3-spanid",
    "x-b3-parentspanid",
    "x-b3-sampled",
    "x-b3-flags",
    "x-request-id"
  }

  /** Every allow-listed name is already in lower case, so a header that
      arrives spelled exactly as listed is recognised. */
  lemma AllowListIsLowerCase()
    ensures forall name :: name in TraceHeadersToPropagate ==> ToLower(name) == name
  {
  }

  /** The membership test the filter applies to one name. */
  predicate IsTraceHeader(name: string) {
    ToLower(name) in TraceHeadersToPropagate
  }

  /** Some inbound header carries exactly this name. */
  predicate Arrived(headers: seq<Header>, name: string) {
    exists i :: 0 <= i < |headers| && headers[i].0 == name
  }

  /** `get_trace_headers`: a dict comprehension over the inbound headers in
      order, keeping each one whose lower-cased name is allow-listed. The
      result is keyed by the name as it arrived; a later header with the same
      name overwrites an earlier one. */
  function GetTraceHeaders(headers: seq<Header>): (r: map<string, string>)
    ensures forall name :: name in r ==> IsTraceHeader(name)
    ensures forall name :: name in r ==> (name, r[name]) in headers
  {
    if |headers| == 0 then map[]
    else
      var kept := GetTraceHeaders(headers[..|headers| - 1]);
      var last := headers[|headers| - 1];
      if IsTraceHeader(last.0) then kept[last.0 := last.1] else kept
  }

  /** Exactly the allow-listed names that arrived are kept: nothing else is
      in the result, and no allow-listed inbound header is dropped. */
  lemma {:induction false} KeptExactly(headers: seq<Header>, name: string)
    ensures name in GetTraceHeaders(headers) <==> IsTraceHeader(name) && Arrived(headers, name)
  {
    if |headers| > 0 {
      var init := headers[..|headers| - 1];
      var last := headers[|headers| - 1];
      KeptExactly(init, name);
      if Arrived(init, name) {
        var i :| 0 <= i < |init| && init[i].0 == name;
        assert headers[i].0 == name;
      }
      if Arrived(headers, name) && last.0 != name {
        var i :| 0 <= i < |headers| && headers[i].0 == name;
        assert i < |init| && init[i].0 == name;
      }
      if last.0 == name {
        assert headers[|headers| - 1].0 == name;
      }
    }
  }

  /** A kept header keeps the value of its last occurrence, unchanged. */
  lemma {:induction false} LastValueWins(headers: seq<Header>, i: nat)
    requires i < |headers| && IsTraceHeader(headers[i].0)
    requires forall j :: i < j < |headers| ==> headers[j].0 != headers[i].0
    ensures headers[i].0 in GetTraceHeaders(headers)
    ensures GetTraceHeaders(headers)[headers[i].0] == headers[i].1
  {
    if i < |headers| - 1 {
      var init := headers[..|headers| - 1];
      assert init[i] == headers[i];
      LastValueWins(init, i);
    }
  }

  /** Changing the case of one inbound name never changes whether that
      header is kept. */
  lemma CaseDoesNotChangeMembership(headers: seq<Header>, i: nat, respelled: string)
    requires i < |headers| && ToLower(respelled) == ToLower(headers[i].0)
    ensures respelled in GetTraceHeaders(headers[i := (respelled, headers[i].1)])
        <==> headers[i].0 in GetTraceHeaders(headers)
  {
    var changed := headers[i := (respelled, headers[i].1)];
    KeptExactly(headers, headers[i].0);
    KeptExactly(changed, respelled);
    assert changed[i].0 == respelled;
  }

  /** `items` lists the entries of `m`, each key once, in some order: what a
      client library sends when it is given the dict `m` as headers. */
  predicate Enumerates(items: seq<Header>, m: map<string, string>) {
    && (forall i :: 0 <= i < |items| ==> items[i].0 in m && m[items[i].0] == items[i].1)
    && (forall name :: name in m ==> Arrived(items, name))
    && (forall i, j :: 0 <= i < j < |items| ==> items[i].0 != items[j].0)
  }

  /** Filtering what the filter produced gives back the same mapping. */
  lemma Idempotent(headers: seq<Header>, items: seq<Header>)
    requires Enumerates(items, GetTraceHeaders(headers))
    ensures GetTraceHeaders(items) == GetTraceHeaders(headers)
  {
    var m := GetTraceHeaders(headers);
    var again := GetTraceHeaders(items);
    forall name
      ensures name in again <==> name in m
    {
      KeptExactly(items, name);
      if name in again {
        var i :| 0 <= i < |items| && items[i].0 == name;
      }
    }
    forall name | name in m
      ensures again[name] == m[name]
    {
      var i :| 0 <= i < |items| && items[i].0 == name;
      LastValueWins(items, i);
    }
  }

  /** The allow-listed headers of `headers`, in arrival order. */
  function TraceOnly(headers: seq<Header>): (r: seq<Header>)
    ensures |r| <= |headers|
    ensures forall i :: 0 <= i < |r| ==> IsTraceHeader(r[i].0) && r[i] in headers
    ensures forall h :: h in r <==> h in headers && IsTraceHeader(h.0)
  {
    if |headers| == 0 then []
    else
      var init := TraceOnly(headers[..|headers| - 1]);
      var last := headers[|headers| - 1];
      if IsTraceHeader(last.0) then init + [last] else init
  }

  /** The filter depends only on the allow-listed headers and their order:
      every other header, wherever it stands, leaves the result alone. */
  lemma {:induction false} DependsOnlyOnTraceHeaders(headers: seq<Header>)
    ensures GetTraceHeaders(TraceOnly(headers)) == GetTraceHeaders(headers)
  {
    if |headers| > 0 {
      var init := headers[..|headers| - 1];
      var last := headers[|headers| - 1];
      DependsOnlyOnTraceHeaders(init);
      if IsTraceHeader(last.0) {
        var kept := TraceOnly(init) + [last];
        assert kept[..|kept| - 1] == TraceOnly(init);
        assert kept[|kept| - 1] == last;
      }
    }
  }

  /** A worked case: a mixed-case W3C header is kept under its own spelling,
      a cookie is dropped, and of two B3 sampling flags the later wins. */
  lemma FilterExample()
    ensures GetTraceHeaders([("TraceParent", "00-ab-cd-01"), ("cookie", "s=1"),
                             ("x-b3-sampled", "0"), ("x-b3-sampled", "1")])
         == map["TraceParent" := "00-ab-cd-01", "x-b3-sampled" := "1"]
  {
    MixedCaseTraceParent();
    var headers := [("TraceParent", "00-ab-cd-01"), ("cookie", "s=1"),
                    ("x-b3-sampled", "0"), ("x-b3-sampled", "1")];
    assert ToLower("cookie") == "cookie";
    assert ToLower("x-b3-sampled") == "x-b3-sampled";
    var m1 := GetTraceHeaders(headers[..1]);
    assert headers[..1][..0] == [];
    assert m1 == map["TraceParent" := "00-ab-cd-01"];
    assert headers[..2][..1] == headers[..1];
    assert GetTraceHeaders(headers[..2]) == m1;
    assert headers[..3][..2] == headers[..2];
    assert GetTraceHeaders(headers[..3]) == m1["x-b3-sampled" := "0"];
    assert headers[..3] == headers[..|headers| - 1];
  }

  /** A mixed-case spelling of an allow-listed name is recognised. */
  lemma MixedCaseTraceParent()
    ensures IsTraceHeader("TraceParent")
  {
    var t := ToLower("TraceParent");
    assert forall i :: 0 <= i < 11 ==> t[i] == "traceparent"[i];
    assert t == "traceparent";
  }
}
