/** The PATCH side of the `/configs` API: the compatibility shim that
    mirrors `socks-port` under the legacy name `socket-port`, and the body
    that `updateConfigs` sends. */
module ConfigsApi {
  import opened Js

  const SocksPort := "socks-port"
  const SocketPort := "socket-port"

  /** The property bag `configsPatchWorkaround` leaves behind: when
      `socks-port` is present, `socket-port` gets its value; nothing else
      changes. */
  function PatchedProps(o: map<string, Value>): (r: map<string, Value>)
    ensures SocksPort in o ==> SocketPort in r && r[SocketPort] == o[SocksPort]
    ensures SocksPort !in o ==> r == o
    ensures r.Keys == o.Keys + (if SocksPort in o then {SocketPort} else {})
    ensures forall k :: k in o && k != SocketPort ==> r[k] == o[k]
  {
    if SocksPort in o then o[SocketPort := o[SocksPort]] else o
  }

  /** Applying the shim a second time changes nothing. */
  lemma PatchedPropsIdempotent(o: map<string, Value>)
    ensures PatchedProps(PatchedProps(o)) == PatchedProps(o)
  {
  }

  /** The shim only ever writes `socket-port`, so it cannot change whether
      `tun` is present or what it holds. */
  lemma PatchedPropsKeepsOthers(o: map<string, Value>, k: string)
    requires k != SocketPort
    ensures k in PatchedProps(o) <==> k in o
    ensures k in o ==> PatchedProps(o)[k] == o[k]
  {
  }

  /** `configsPatchWorkaround(o)`: sets `socket-port` in place on the
      caller's object and returns that same object. */
  method ConfigsPatchWorkaround(o: JsObject) returns (r: JsObject)
    modifies o
    ensures r == o
    ensures o.props == PatchedProps(old(o.props))
  {
    if SocksPort in o.props {
      o.props := o.props[SocketPort := o.props[SocksPort]];
    }
    r := o;
  }

  /** The request `updateConfigs` issues; the transport (URL, headers,
      `fetch`) is not modelled. */
  datatype Request = Request(method_: string, body: Value)

  /** `updateConfigs(apiConfig)(o)`: the PATCH body is the serialisation of
      the shimmed object, which is also left in the caller's hands shimmed. */
  method UpdateConfigs(o: JsObject) returns (req: Request)
    modifies o
    ensures o.props == PatchedProps(old(o.props))
    ensures req == Request("PATCH", JsonValue(Obj(o.props)))
  {
    var shimmed := ConfigsPatchWorkaround(o);
    req := Request("PATCH", JsonValue(Obj(shimmed.props)));
  }

  /** The body a PATCH of `o` carries: a JSON object whose `socket-port`
      repeats `socks-port` whenever the latter is present. */
  function PatchBody(o: map<string, Value>): (body: Value)
    ensures body.Obj? && NaNFree(body)
    ensures body.fields.Keys == PatchedProps(o).Keys
    ensures SocksPort in o ==> SocketPort in body.fields && body.fields[SocketPort] == body.fields[SocksPort]
    ensures NaNFree(Obj(o)) ==> forall k :: k in o && k != SocketPort ==> body.fields[k] == o[k]
    ensures forall k :: k in o && k != SocketPort && NaNFree(o[k]) ==> body.fields[k] == o[k]
    ensures forall k :: k in o && k != SocketPort && o[k] == NaN ==> body.fields[k] == Null
  {
    var p := PatchedProps(o);
    assert NaNFree(Obj(o)) ==> NaNFree(Obj(p)) by {
      if NaNFree(Obj(o)) {
        assert forall k :: k in p ==> NaNFree(p[k]) by {
          forall k | k in p ensures NaNFree(p[k]) {
            if k == SocketPort && SocksPort in o { assert p[k] == o[SocksPort]; }
          }
        }
      }
    }
    JsonValue(Obj(p))
  }

  /** `updateConfigs` sends exactly `PatchBody` of what it was given. */
  method UpdateConfigsSendsPatchBody(props: map<string, Value>) returns (req: Request)
    ensures req == Request("PATCH", PatchBody(props))
  {
    var o := new JsObject(props);
    req := UpdateConfigs(o);
  }

  /** Patching `{'socks-port': 1080}` transmits both `socks-port: 1080` and
      `socket-port: 1080`. */
  lemma SocksPortMirrored()
    ensures PatchBody(map[SocksPort := Num(1080)]) ==
            Obj(map[SocksPort := Num(1080), SocketPort := Num(1080)])
  {
    var o := map[SocksPort := Num(1080)];
    assert NaNFree(Obj(PatchedProps(o)));
  }
}
