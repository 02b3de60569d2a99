/** The serverless proxy `handler` (api/generate.js): it relays a POST to
    the image API with the hop-by-hop headers removed and `X-Platform`
    forced, then relays the status, body and two headers of the answer. */
module Proxy {
  import opened Wrappers
  import opened JsString
  import opened JobTypes

  /** A header as a (name, value) pair. */
  type Header = (string, string)

  const HopByHop: seq<string> := ["host", "connection", "content-length", "transfer-encoding", "content-encoding"]
  const TargetUrl: string := "https://ai.twoblk.workers.dev/generate"
  const PlatformName: string := "X-Platform"
  const PlatformValue: string := "imageeditor"
  const ProxyErrorMessage: string := "Internal Proxy Error"

  /** Header names are compared without regard to ASCII case. */
  predicate SameName(a: string, b: string) {
    Lower(a) == Lower(b)
  }

  predicate IsHopByHop(name: string) {
    Lower(name) in HopByHop
  }

  // ---- The outgoing header list ----

  /** The incoming headers that survive the filter, in their order. */
  function DropHopByHop(hs: seq<Header>): seq<Header> {
    if hs == [] then []
    else (if IsHopByHop(hs[0].0) then [] else [hs[0]]) + DropHopByHop(hs[1..])
  }

  /** The headers carrying `name`. */
  function Named(hs: seq<Header>, name: string): seq<Header> {
    if hs == [] then []
    else (if SameName(hs[0].0, name) then [hs[0]] else []) + Named(hs[1..], name)
  }

  /** The headers not carrying `name`. */
  function WithoutName(hs: seq<Header>, name: string): seq<Header> {
    if hs == [] then []
    else (if SameName(hs[0].0, name) then [] else [hs[0]]) + WithoutName(hs[1..], name)
  }

  /** `Headers.set` as the Fetch standard defines it: the first header with
      the name takes the new value and the others with that name go; with
      none, the header is appended. */
  function SetFirst(hs: seq<Header>, name: string, value: string): seq<Header> {
    if hs == [] then [(name, value)]
    else if SameName(hs[0].0, name) then [(hs[0].0, value)] + WithoutName(hs[1..], name)
    else [hs[0]] + SetFirst(hs[1..], name, value)
  }

  /** The headers sent upstream. */
  function ForwardHeaders(incoming: seq<Header>): seq<Header> {
    SetFirst(DropHopByHop(incoming), PlatformName, PlatformValue)
  }

  /** The `Headers` object the proxy fills. */
  class OutgoingHeaders {
    var list: seq<Header>

    constructor()
      ensures list == []
    {
      list := [];
    }

    method Append(name: string, value: string)
      modifies this
      ensures list == old(list) + [(name, value)]
    {
      list := list + [(name, value)];
    }

    method Set(name: string, value: string)
      modifies this
      ensures list == SetFirst(old(list), name, value)
    {
      list := SetFirst(list, name, value);
    }
  }

  /** The `forEach` over the incoming headers, then the `set`. */
  method BuildHeaders(incoming: seq<Header>) returns (headers: OutgoingHeaders)
    ensures fresh(headers)
    ensures headers.list == ForwardHeaders(incoming)
  {
    headers := new OutgoingHeaders();
    for i := 0 to |incoming|
      invariant headers.list == DropHopByHop(incoming[..i])
    {
      DropHopByHopAppend(incoming[..i], [incoming[i]]);
      assert incoming[..i + 1] == incoming[..i] + [incoming[i]];
      if !IsHopByHop(incoming[i].0) {
        headers.Append(incoming[i].0, incoming[i].1);
      }
    }
    assert incoming[..|incoming|] == incoming;
    headers.Set(PlatformName, PlatformValue);
  }

  /** Filtering distributes over concatenation, so the order is kept. */
  lemma {:induction false} DropHopByHopAppend(a: seq<Header>, b: seq<Header>)
    ensures DropHopByHop(a + b) == DropHopByHop(a) + DropHopByHop(b)
  {
    if a == [] {
      assert a + b == b;
    } else {
      assert (a + b)[1..] == a[1..] + b;
      DropHopByHopAppend(a[1..], b);
    }
  }

  /** A header is forwarded by the filter exactly when it came in and its
      lower-cased name is not hop-by-hop. */
  lemma {:induction false} DropHopByHopMembers(hs: seq<Header>, h: Header)
    ensures h in DropHopByHop(hs) <==> h in hs && !IsHopByHop(h.0)
  {
    if hs != [] {
      DropHopByHopMembers(hs[1..], h);
      assert hs == [hs[0]] + hs[1..];
    }
  }

  /** Without hop-by-hop headers the filter changes nothing. */
  lemma {:induction false} DropHopByHopKeeps(hs: seq<Header>)
    requires forall k :: 0 <= k < |hs| ==> !IsHopByHop(hs[k].0)
    ensures DropHopByHop(hs) == hs
  {
    if hs != [] {
      DropHopByHopKeeps(hs[1..]);
      assert hs == [hs[0]] + hs[1..];
    }
  }

  lemma {:induction false} WithoutNameMembers(hs: seq<Header>, name: string, h: Header)
    ensures h in WithoutName(hs, name) <==> h in hs && !SameName(h.0, name)
  {
    if hs != [] {
      WithoutNameMembers(hs[1..], name, h);
      assert hs == [hs[0]] + hs[1..];
    }
  }

  lemma {:induction false} NamedOfWithout(hs: seq<Header>, name: string)
    ensures Named(WithoutName(hs, name), name) == []
  {
    if hs != [] {
      NamedOfWithout(hs[1..], name);
      if !SameName(hs[0].0, name) {
        var w := WithoutName(hs, name);
        assert w == [hs[0]] + WithoutName(hs[1..], name);
        assert w[0] == hs[0] && w[1..] == WithoutName(hs[1..], name);
      } else {
        var rest := WithoutName(hs[1..], name);
        assert WithoutName(hs, name) == [] + rest;
        assert [] + rest == rest;
      }
    }
  }

  lemma {:induction false} WithoutOfWithout(hs: seq<Header>, name: string)
    ensures WithoutName(WithoutName(hs, name), name) == WithoutName(hs, name)
  {
    if hs != [] {
      WithoutOfWithout(hs[1..], name);
      if !SameName(hs[0].0, name) {
        var w := WithoutName(hs, name);
        assert w == [hs[0]] + WithoutName(hs[1..], name);
        assert w[0] == hs[0] && w[1..] == WithoutName(hs[1..], name);
      } else {
        var rest := WithoutName(hs[1..], name);
        assert WithoutName(hs, name) == [] + rest;
        assert [] + rest == rest;
      }
    }
  }

  /** After `set`, the name carries exactly one header, with the new value. */
  lemma {:induction false} SetFirstNamed(hs: seq<Header>, name: string, value: string)
    ensures |Named(SetFirst(hs, name, value), name)| == 1
    ensures Named(SetFirst(hs, name, value), name)[0].1 == value
  {
    if hs == [] {
      var one: seq<Header> := [(name, value)];
      assert SetFirst(hs, name, value) == one;
      assert one[1..] == [];
    } else if SameName(hs[0].0, name) {
      var rest := WithoutName(hs[1..], name);
      var r := SetFirst(hs, name, value);
      assert r == [(hs[0].0, value)] + rest;
      assert r[1..] == rest;
      NamedOfWithout(hs[1..], name);
    } else {
      SetFirstNamed(hs[1..], name, value);
      var r := SetFirst(hs, name, value);
      assert r[1..] == SetFirst(hs[1..], name, value);
    }
  }

  /** `set` leaves every header of another name as it was, in order. */
  lemma {:induction false} SetFirstKeepsOthers(hs: seq<Header>, name: string, value: string)
    ensures WithoutName(SetFirst(hs, name, value), name) == WithoutName(hs, name)
  {
    if hs == [] {
      var one: seq<Header> := [(name, value)];
      assert one[1..] == [];
    } else if SameName(hs[0].0, name) {
      var r := SetFirst(hs, name, value);
      assert r[1..] == WithoutName(hs[1..], name);
      WithoutOfWithout(hs[1..], name);
    } else {
      SetFirstKeepsOthers(hs[1..], name, value);
      var r := SetFirst(hs, name, value);
      assert r[1..] == SetFirst(hs[1..], name, value);
    }
  }

  /** Every header `set` leaves is either an old one or the new one. */
  lemma {:induction false} SetFirstMembers(hs: seq<Header>, name: string, value: string, h: Header)
    requires h in SetFirst(hs, name, value)
    ensures h in hs || (SameName(h.0, name) && h.1 == value)
  {
    if hs == [] {
    } else if SameName(hs[0].0, name) {
      var r := SetFirst(hs, name, value);
      if h != (hs[0].0, value) {
        assert h in WithoutName(hs[1..], name);
        WithoutNameMembers(hs[1..], name, h);
      }
    } else {
      if h != hs[0] {
        SetFirstMembers(hs[1..], name, value, h);
      }
    }
  }

  lemma PlatformNotHopByHop()
    ensures !IsHopByHop(PlatformName)
  {
    var l := Lower(PlatformName);
    assert |l| == 10 && l[1] == '-';
  }

  /** What reaches the image API: no hop-by-hop header, exactly one
      `X-Platform` header whose value is `imageeditor`, and every other
      forwarded header exactly as the filter left it. */
  lemma ForwardedHeaders(incoming: seq<Header>)
    ensures forall h :: h in ForwardHeaders(incoming) ==> !IsHopByHop(h.0)
    ensures |Named(ForwardHeaders(incoming), PlatformName)| == 1
    ensures Named(ForwardHeaders(incoming), PlatformName)[0].1 == PlatformValue
    ensures WithoutName(ForwardHeaders(incoming), PlatformName)
         == WithoutName(DropHopByHop(incoming), PlatformName)
  {
    var kept := DropHopByHop(incoming);
    forall h | h in ForwardHeaders(incoming)
      ensures !IsHopByHop(h.0)
    {
      SetFirstMembers(kept, PlatformName, PlatformValue, h);
      if h in kept {
        DropHopByHopMembers(incoming, h);
      } else {
        PlatformNotHopByHop();
      }
    }
    SetFirstNamed(kept, PlatformName, PlatformValue);
    SetFirstKeepsOthers(kept, PlatformName, PlatformValue);
  }

  // ---- The reply ----

  /** `headers.get(name)` on the upstream reply: the values of every header
      with that name joined by ", ", or null when there is none. */
  function HeaderGet(hs: seq<Header>, name: string): Option<string> {
    var values := Values(Named(hs, name));
    if values == [] then None else Some(Join(values, ", "))
  }

  function Values(hs: seq<Header>): (vs: seq<string>)
    ensures |vs| == |hs|
  {
    if hs == [] then [] else [hs[0].1] + Values(hs[1..])
  }

  /** Node's `setHeader`: the header of that name is replaced where it
      stands, or appended. */
  function NodeSet(hs: seq<Header>, name: string, value: string): seq<Header> {
    if hs == [] then [(name, value)]
    else if SameName(hs[0].0, name) then [(name, value)] + hs[1..]
    else [hs[0]] + NodeSet(hs[1..], name, value)
  }

  /** Node's `getHeader`: the value of the first header with that name. */
  function NodeGet(hs: seq<Header>, name: string): Option<string> {
    if hs == [] then None
    else if SameName(hs[0].0, name) then Some(hs[0].1)
    else NodeGet(hs[1..], name)
  }

  lemma {:induction false} NodeSetGet(hs: seq<Header>, name: string, value: string, other: string)
    ensures NodeGet(NodeSet(hs, name, value), name) == Some(value)
    ensures !SameName(other, name) ==> NodeGet(NodeSet(hs, name, value), other) == NodeGet(hs, other)
  {
    if hs != [] && !SameName(hs[0].0, name) {
      NodeSetGet(hs[1..], name, value, other);
    }
  }

  datatype ErrorEnvelope = ErrorEnvelope(success: bool, message: string, error: string)

  datatype ResponseBody = TextBody(text: string) | BytesBody(bytes: seq<int>) | JsonBody(envelope: ErrorEnvelope)

  datatype IncomingRequest = IncomingRequest(verb: string, headers: seq<Header>, body: seq<int>)

  datatype UpstreamCall = UpstreamCall(url: string, verb: string, headers: seq<Header>, body: seq<int>)

  datatype UpstreamReply = UpstreamReply(status: nat, headers: seq<Header>, body: seq<int>)

  /** The response as the proxy leaves it. */
  datatype Outgoing = Outgoing(status: nat, headers: seq<Header>, body: Option<ResponseBody>)

  /** The request made upstream; only a POST makes one. */
  function UpstreamFor(req: IncomingRequest): Option<UpstreamCall> {
    if req.verb != "POST" then None
    else Some(UpstreamCall(TargetUrl, "POST", ForwardHeaders(req.headers), req.body))
  }

  function ContentTypeFor(upstream: seq<Header>): string {
    var ct := HeaderGet(upstream, "content-type");
    if Truthy(ct) then ct.value else "application/json"
  }

  function RelayHeaders(initial: seq<Header>, upstream: seq<Header>): seq<Header> {
    var withType := NodeSet(initial, "Content-Type", ContentTypeFor(upstream));
    var cd := HeaderGet(upstream, "content-disposition");
    if Truthy(cd) then NodeSet(withType, "Content-Disposition", cd.value) else withType
  }

  /** The response the handler produces, from the headers the response
      object had before and the outcome of the upstream request (Err when
      it throws). */
  function Respond(req: IncomingRequest, initial: seq<Header>,
                   fetch: UpstreamCall -> Result<UpstreamReply>): Outgoing
  {
    if req.verb != "POST" then
      Outgoing(405, NodeSet(initial, "Allow", "POST"), Some(TextBody("Method " + req.verb + " Not Allowed")))
    else
      match fetch(UpstreamCall(TargetUrl, "POST", ForwardHeaders(req.headers), req.body))
      case Err(m) => Outgoing(500, initial, Some(JsonBody(ErrorEnvelope(false, ProxyErrorMessage, m))))
      case Ok(up) => Outgoing(up.status, RelayHeaders(initial, up.headers), Some(BytesBody(up.body)))
  }

  /** The Node response object the handler writes to. */
  class ServerResponse {
    var statusCode: nat
    var headers: seq<Header>
    var body: Option<ResponseBody>

    constructor()
      ensures statusCode == 200 && headers == [] && body == None
    {
      statusCode := 200;
      headers := [];
      body := None;
    }

    method SetHeader(name: string, value: string)
      modifies this
      ensures headers == NodeSet(old(headers), name, value)
      ensures statusCode == old(statusCode) && body == old(body)
    {
      headers := NodeSet(headers, name, value);
    }

    method Status(code: nat)
      modifies this
      ensures statusCode == code
      ensures headers == old(headers) && body == old(body)
    {
      statusCode := code;
    }

    /** `end`, `send` and `json`: the body, written once. */
    method Finish(b: ResponseBody)
      modifies this
      ensures body == Some(b)
      ensures statusCode == old(statusCode) && headers == old(headers)
    {
      body := Some(b);
    }
  }

  /** `handler(req, res)`: `call` is the request made upstream, if any. */
  method Handle(req: IncomingRequest, res: ServerResponse, fetch: UpstreamCall -> Result<UpstreamReply>)
    returns (call: Option<UpstreamCall>)
    modifies res
    ensures call == UpstreamFor(req)
    ensures Outgoing(res.statusCode, res.headers, res.body) == Respond(req, old(res.headers), fetch)
  {
    if req.verb != "POST" {
      res.SetHeader("Allow", "POST");
      res.Status(405);
      res.Finish(TextBody("Method " + req.verb + " Not Allowed"));
      return None;
    }
    var headers := BuildHeaders(req.headers);
    var request := UpstreamCall(TargetUrl, "POST", headers.list, req.body);
    call := Some(request);
    var response := fetch(request);
    if response.Err? {
      res.Status(500);
      res.Finish(JsonBody(ErrorEnvelope(false, ProxyErrorMessage, response.message)));
      return;
    }
    var up := response.value;
    var contentType := HeaderGet(up.headers, "content-type");
    res.SetHeader("Content-Type", if Truthy(contentType) then contentType.value else "application/json");
    var disposition := HeaderGet(up.headers, "content-disposition");
    if Truthy(disposition) {
      res.SetHeader("Content-Disposition", disposition.value);
    }
    res.Status(up.status);
    res.Finish(BytesBody(up.body));
  }

  /** Any method but POST is refused with 405 and makes no upstream call. */
  lemma WrongMethod(req: IncomingRequest, initial: seq<Header>, fetch: UpstreamCall -> Result<UpstreamReply>)
    requires req.verb != "POST"
    ensures UpstreamFor(req).None?
    ensures Respond(req, initial, fetch).status == 405
    ensures NodeGet(Respond(req, initial, fetch).headers, "Allow") == Some("POST")
    ensures Respond(req, initial, fetch).body == Some(TextBody("Method " + req.verb + " Not Allowed"))
  {
    NodeSetGet(initial, "Allow", "POST", "Allow");
  }

  /** A thrown error becomes a 500 with the error envelope. */
  lemma UpstreamFailure(req: IncomingRequest, initial: seq<Header>, fetch: UpstreamCall -> Result<UpstreamReply>)
    requires req.verb == "POST" && fetch(UpstreamFor(req).value).Err?
    ensures Respond(req, initial, fetch)
      == Outgoing(500, initial, Some(JsonBody(ErrorEnvelope(false, ProxyErrorMessage,
                                                            fetch(UpstreamFor(req).value).message))))
  {
  }

  lemma ContentNamesDiffer()
    ensures !SameName("Content-Disposition", "Content-Type")
    ensures !SameName("Content-Type", "Content-Disposition")
  {
    assert |Lower("Content-Disposition")| != |Lower("Content-Type")|;
  }

  /** The two relayed headers, as the response object then reports them. */
  lemma RelayHeadersGet(initial: seq<Header>, upstream: seq<Header>)
    ensures NodeGet(RelayHeaders(initial, upstream), "Content-Type") == Some(ContentTypeFor(upstream))
    ensures var cd := HeaderGet(upstream, "content-disposition");
      NodeGet(RelayHeaders(initial, upstream), "Content-Disposition")
        == if Truthy(cd) then cd else NodeGet(initial, "Content-Disposition")
  {
    var withType := NodeSet(initial, "Content-Type", ContentTypeFor(upstream));
    var cd := HeaderGet(upstream, "content-disposition");
    ContentNamesDiffer();
    NodeSetGet(initial, "Content-Type", ContentTypeFor(upstream), "Content-Disposition");
    if Truthy(cd) {
      NodeSetGet(withType, "Content-Disposition", cd.value, "Content-Type");
    }
  }

  /** A reply is relayed with its status and bytes unchanged, its content
      type or `application/json`, and a `Content-Disposition` exactly when
      the reply has a non-empty one. */
  lemma UpstreamRelayed(req: IncomingRequest, initial: seq<Header>, fetch: UpstreamCall -> Result<UpstreamReply>)
    requires req.verb == "POST" && fetch(UpstreamFor(req).value).Ok?
    ensures var up := fetch(UpstreamFor(req).value).value;
      var out := Respond(req, initial, fetch);
      var cd := HeaderGet(up.headers, "content-disposition");
      out.status == up.status && out.body == Some(BytesBody(up.body))
      && NodeGet(out.headers, "Content-Type") == Some(ContentTypeFor(up.headers))
      && NodeGet(out.headers, "Content-Disposition")
           == if Truthy(cd) then cd else NodeGet(initial, "Content-Disposition")
  {
    var up := fetch(UpstreamFor(req).value).value;
    assert Respond(req, initial, fetch).headers == RelayHeaders(initial, up.headers);
    RelayHeadersGet(initial, up.headers);
  }
}
