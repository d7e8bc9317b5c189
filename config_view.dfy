/** The settings page: how an edit of one field changes the local copy of
    the daemon's general config and which PATCH it issues, what leaving an
    input field does, what a successful PATCH triggers, how the mode is
    labelled, and when the local copy is reset to the config the page is
    given. */
module ConfigView {
  import opened Js
  import ConfigsApi

  // ---------------------------------------------------------------------
  // The names the handlers dispatch on

  const Tun := "tun"
  const LatencyTestUrl := "latencyTestUrl"
  const ConfigsQueryKey := "/configs"

  /** Fields that are sent as soon as they change. */
  predicate IsImmediateName(name: string)
  {
    name == "mode" || name == "log-level" || name == "allow-lan" || name == "sniffing"
  }

  /** The five port fields. */
  predicate IsPortName(name: string)
  {
    name == "mitm-port" || name == "redir-port" || name == ConfigsApi.SocksPort || name == "mixed-port" || name == "port"
  }

  /** Fields of the nested `tun` object. */
  predicate IsTunName(name: string)
  {
    name == "enable" || name == "stack"
  }

  /** A name none of the cases of the change handler matches. */
  predicate IsUnknownName(name: string)
  {
    !IsImmediateName(name) && !IsPortName(name) && !IsTunName(name)
  }

  lemma NameClassesDisjoint(name: string)
    ensures !(IsImmediateName(name) && IsPortName(name))
    ensures !(IsImmediateName(name) && IsTunName(name))
    ensures !(IsPortName(name) && IsTunName(name))
    ensures IsImmediateName(name) || IsPortName(name) || IsTunName(name) ==> name != Tun && name != LatencyTestUrl
  {
  }

  // ---------------------------------------------------------------------
  // setConfigState

  /** `t` is `s` with `name` set to `v` and nothing else changed. */
  predicate SetsOnly(s: map<string, Value>, t: map<string, Value>, name: string, v: Value)
  {
    && t.Keys == s.Keys + {name}
    && t[name] == v
    && forall k :: k in s && k != name ==> t[k] == s[k]
  }

  /** `setConfigState(name, val)`: a copy of the state with one key set. */
  function SetConfigState(s: map<string, Value>, name: string, v: Value): (r: map<string, Value>)
    ensures SetsOnly(s, r, name, v)
  {
    s[name := v]
  }

  /** Setting a key and then setting it again keeps only the last value. */
  lemma SetConfigStateLastWins(s: map<string, Value>, name: string, v: Value, w: Value)
    ensures SetConfigState(SetConfigState(s, name, v), name, w) == SetConfigState(s, name, w)
  {
  }

  /** Setting a key to the value it already has gives back the same state. */
  lemma SetConfigStateSameValue(s: map<string, Value>, name: string)
    requires name in s
    ensures SetConfigState(s, name, s[name]) == s
  {
  }

  // ---------------------------------------------------------------------
  // handleChangeValue

  /** The fields of `configState.tun` as the spread `{...configState.tun}`
      copies them; a missing or non-object `tun` contributes nothing. */
  function TunFields(s: map<string, Value>): (r: map<string, Value>)
    ensures Tun in s && s[Tun].Obj? ==> r.Keys == s[Tun].fields.Keys
    ensures forall k :: k in r ==> Tun in s && s[Tun].Obj? && r[k] == s[Tun].fields[k]
  {
    if Tun in s && s[Tun].Obj? then s[Tun].fields else map[]
  }

  /** A port edit that the change handler refuses: a non-empty value whose
      `parseInt` is a number outside 0..65535.  A value that does not parse
      is `NaN`, and both comparisons with `NaN` are false. */
  predicate PortEditRejected(v: Value): (r: bool)
    ensures r ==> v.Str? || v.Num?
    ensures v.Num? ==> (r <==> v.n < 0 || v.n > 65535)
    ensures v == Str("") ==> !r
  {
    ParseIntValueCases(v);
    v != Str("") && ParseIntValue(v).Some? && (ParseIntValue(v).value < 0 || ParseIntValue(v).value > 65535)
  }

  /** The outcome of a handler: the new local state if `setConfigState` was
      called, and the object passed to `mutation.mutate` if it was called. */
  datatype Change = Change(newState: Option<map<string, Value>>, mutation: Option<map<string, Value>>)

  /** `handleChangeValue({name, value})` on local state `s`. */
  function ChangeValue(s: map<string, Value>, name: string, value: Value): (r: Change)
    ensures IsImmediateName(name) ==>
      && r.newState.Some? && SetsOnly(s, r.newState.value, name, value)
      && r.mutation == Some(map[name := value])
    ensures IsPortName(name) ==>
      && r.mutation.None?
      && (r.newState.None? <==> PortEditRejected(value))
      && (r.newState.Some? ==> SetsOnly(s, r.newState.value, name, value))
    ensures IsTunName(name) ==>
      && r.newState.Some? && SetsOnly(s, r.newState.value, Tun, Obj(TunFields(s)[name := value]))
      && r.mutation == Some(map[Tun := Obj(map[name := value])])
    ensures IsUnknownName(name) ==> r == Change(None, None)
  {
    if IsImmediateName(name) then
      Change(Some(SetConfigState(s, name, value)), Some(map[name := value]))
    else if IsPortName(name) then
      if PortEditRejected(value) then
        Change(None, None)
      else
        Change(Some(SetConfigState(s, name, value)), None)
    else if IsTunName(name) then
      Change(Some(SetConfigState(s, Tun, Obj(TunFields(s)[name := value]))), Some(map[Tun := Obj(map[name := value])]))
    else
      Change(None, None)
  }

  /** A tun edit keeps the other tun fields as they were. */
  lemma TunEditKeepsOtherTunFields(s: map<string, Value>, name: string, value: Value, other: string)
    requires IsTunName(name) && other != name && Tun in s && s[Tun].Obj? && other in s[Tun].fields
    ensures var t := ChangeValue(s, name, value).newState.value[Tun];
      t.Obj? && other in t.fields && t.fields[other] == s[Tun].fields[other]
  {
  }

  /** Text that `parseInt` cannot read is accepted into the local state:
      the range check only ever refuses numbers. */
  lemma UnparsablePortTextAccepted(s: map<string, Value>, name: string, text: string)
    requires IsPortName(name) && ParseInt(text).None?
    ensures ChangeValue(s, name, Str(text)).newState == Some(s[name := Str(text)])
  {
  }

  /** Clearing a port field is always accepted. */
  lemma EmptyPortTextAccepted(s: map<string, Value>, name: string)
    requires IsPortName(name)
    ensures ChangeValue(s, name, Str("")).newState == Some(s[name := Str("")])
  {
  }

  /** A decimal number, with or without trailing text, is accepted exactly
      when it lies in 0..65535. */
  lemma PortNumberRangeCheck(s: map<string, Value>, name: string, n: int, tail: string)
    requires IsPortName(name)
    requires tail == [] || !IsDigit(tail[0])
    ensures ChangeValue(s, name, Str(IntToString(n) + tail)).newState.Some? <==> 0 <= n <= 65535
  {
    ParseIntOfDecimal(n, tail);
    assert IntToString(n) + tail != "" by {
      if n < 0 {
        assert (IntToString(n) + tail)[0] == '-';
      } else {
        assert |NatToString(n)| > 0;
      }
    }
  }

  /** The page's switch for `allow-lan` sets the field and sends it, just as
      an `allow-lan` change does. */
  function SwitchOnChange(s: map<string, Value>, checked: bool): (r: Change)
    ensures r == ChangeValue(s, "allow-lan", Bool(checked))
  {
    Change(Some(SetConfigState(s, "allow-lan", Bool(checked))), Some(map["allow-lan" := Bool(checked)]))
  }

  // ---------------------------------------------------------------------
  // handleInputOnBlur

  datatype BlurEffect =
    | Mutate(payload: map<string, Value>)
    | Ignore
    | SetLatencyTestUrl(url: string)
    | Throw(message: string)

  /** `handleInputOnBlur` for an input named `name` holding `value`.  A port
      that does not parse is still sent, as `NaN`. */
  function InputOnBlur(name: string, value: string): (r: BlurEffect)
    ensures IsPortName(name) ==>
      match ParseInt(value)
      case Some(n) => r == (if 0 <= n <= 65535 then Mutate(map[name := Num(n)]) else Ignore)
      case None => r == Mutate(map[name := NaN])
    ensures name == LatencyTestUrl ==> r == SetLatencyTestUrl(value)
    ensures !IsPortName(name) && name != LatencyTestUrl ==> r == Throw("unknown input name " + name)
  {
    if IsPortName(name) then
      var num := ParseInt(value);
      if num.Some? && (num.value < 0 || num.value > 65535) then Ignore
      else Mutate(map[name := if num.Some? then Num(num.value) else NaN])
    else if name == LatencyTestUrl then SetLatencyTestUrl(value)
    else Throw("unknown input name " + name)
  }

  /** An unknown name is ignored while typing but throws on leaving the
      field; so do the immediate and tun names, which no text input uses. */
  lemma UnknownNameIgnoredThenThrows(s: map<string, Value>, name: string, value: string)
    requires IsUnknownName(name) && name != LatencyTestUrl
    ensures ChangeValue(s, name, Str(value)) == Change(None, None)
    ensures InputOnBlur(name, value) == Throw("unknown input name " + name)
  {
  }

  /** `latencyTestUrl` is not a config field: typing into it changes nothing
      there, and leaving it stores the URL. */
  lemma LatencyTestUrlOnlyOnBlur(s: map<string, Value>, value: string)
    ensures ChangeValue(s, LatencyTestUrl, Str(value)) == Change(None, None)
    ensures InputOnBlur(LatencyTestUrl, value) == SetLatencyTestUrl(value)
  {
  }

  /** A port sent on blur always carries a number in range or `NaN`, and the
      `NaN` reaches the daemon as `null`. */
  lemma BlurPortPayload(name: string, value: string)
    requires IsPortName(name) && InputOnBlur(name, value).Mutate?
    ensures var p := InputOnBlur(name, value).payload;
      p.Keys == {name} && (p[name] == NaN || (p[name].Num? && 0 <= p[name].n <= 65535))
    ensures ParseInt(value).None? ==>
      ConfigsApi.PatchBody(InputOnBlur(name, value).payload).fields[name] == Null
  {
    var p := InputOnBlur(name, value).payload;
    if ParseInt(value).None? {
      assert ConfigsApi.PatchedProps(p)[name] == NaN;
    }
  }

  /** Leaving the SOCKS port field with `1080` sends both spellings of it. */
  lemma SocksPortBlurSendsBoth()
    ensures InputOnBlur(ConfigsApi.SocksPort, "1080") == Mutate(map[ConfigsApi.SocksPort := Num(1080)])
    ensures ConfigsApi.PatchBody(map[ConfigsApi.SocksPort := Num(1080)]) ==
      Obj(map[ConfigsApi.SocksPort := Num(1080), ConfigsApi.SocketPort := Num(1080)])
  {
    assert IntToString(1080) + [] == "1080";
    ParseIntOfDecimal(1080, []);
    ConfigsApi.SocksPortMirrored();
  }

  // ---------------------------------------------------------------------
  // The mutation's onSuccess

  /** The calls `onSuccess` makes. */
  datatype SuccessEffects = SuccessEffects(closeAllConnections: bool, invalidated: seq<string>)

  /** `onSuccess(data, variables)`: connections are closed when the sent
      object has a truthy `tun`; the `/configs` query is refetched always. */
  function OnMutationSuccess(variables: map<string, Value>): (r: SuccessEffects)
    ensures r.closeAllConnections <==> TruthyProp(variables, Tun)
    ensures r.invalidated == [ConfigsQueryKey]
  {
    SuccessEffects(TruthyProp(variables, Tun), [ConfigsQueryKey])
  }

  /** `variables` is the object after the PATCH shim rewrote it in place;
      the shim never touches `tun`, so the outcome is the same. */
  lemma SuccessIgnoresShim(p: map<string, Value>)
    ensures OnMutationSuccess(ConfigsApi.PatchedProps(p)) == OnMutationSuccess(p)
  {
    ConfigsApi.PatchedPropsKeepsOthers(p, Tun);
  }

  /** Connections are closed after a change exactly when it was a change of
      a tun field. */
  lemma ClosesConnectionsIffTunEdit(s: map<string, Value>, name: string, value: Value)
    requires ChangeValue(s, name, value).mutation.Some?
    ensures OnMutationSuccess(ChangeValue(s, name, value).mutation.value).closeAllConnections <==> IsTunName(name)
  {
  }

  /** A port sent on blur never closes connections. */
  lemma BlurNeverClosesConnections(name: string, value: string)
    requires InputOnBlur(name, value).Mutate?
    ensures !OnMutationSuccess(InputOnBlur(name, value).payload).closeAllConnections
  {
  }

  // ---------------------------------------------------------------------
  // The `mode` memo

  /** What the memo yields: the label, `false` for a mode that is not a
      string, or the `TypeError` raised when the first character of an
      empty mode is upper-cased. */
  datatype ModeLabel = Label(text: string) | NotAString | TypeError

  /** The displayed mode: first character upper-cased, the rest as is. */
  function ModeOf(s: map<string, Value>): (r: ModeLabel)
    ensures r.Label? <==> "mode" in s && s["mode"].Str? && s["mode"].s != ""
    ensures r.TypeError? <==> "mode" in s && s["mode"] == Str("")
    ensures r.Label? ==> var m := s["mode"].s;
      |r.text| == |m| && r.text[0] == ToUpperAscii(m[0]) && r.text[1..] == m[1..]
  {
    if "mode" in s && s["mode"].Str? then
      var m := s["mode"].s;
      if m == "" then TypeError else Label([ToUpperAscii(m[0])] + m[1..])
    else NotAString
  }

  /** Labelling a label again changes nothing. */
  lemma ModeLabelIdempotent(s: map<string, Value>)
    requires ModeOf(s).Label?
    ensures ModeOf(s["mode" := Str(ModeOf(s).text)]) == ModeOf(s)
  {
    var t := ModeOf(s).text;
    assert [ToUpperAscii(t[0])] + t[1..] == t;
  }

  /** The daemon's lower-case modes are labelled as the option values of the
      mode selector. */
  lemma ModeLabelsMatchOptions()
    ensures ModeOf(map["mode" := Str("direct")]) == Label("Direct")
    ensures ModeOf(map["mode" := Str("rule")]) == Label("Rule")
    ensures ModeOf(map["mode" := Str("script")]) == Label("Script")
    ensures ModeOf(map["mode" := Str("global")]) == Label("Global")
  {
    assert ToUpperAscii('d') == 'D' && ToUpperAscii('r') == 'R';
    assert ToUpperAscii('s') == 'S' && ToUpperAscii('g') == 'G';
  }

  // ---------------------------------------------------------------------
  // The component

  /** The `configs` prop.  React compares it by identity, so it is an
      object; its contents never change. */
  class ConfigsProp {
    const fields: map<string, Value>

    constructor (fields: map<string, Value>)
      ensures this.fields == fields
    {
      this.fields := fields;
    }
  }

  /** The component's own state: `configState`, the `refConfigs` ref, the
      latency-test URL atom, and the objects passed to `mutation.mutate`. */
  class ConfigComponent {
    var configState: map<string, Value>
    var refConfigs: ConfigsProp
    var latencyTestUrl: string
    ghost var mutations: seq<map<string, Value>>

    /** The first render: both the state and the ref start from `configs`. */
    constructor (configs: ConfigsProp, url: string)
      ensures configState == configs.fields && refConfigs == configs
      ensures latencyTestUrl == url && mutations == []
    {
      configState := configs.fields;
      refConfigs := configs;
      latencyTestUrl := url;
      mutations := [];
    }

    /** The effect on `[configs]`: reset the local state only when the prop is
      a different object from the one last seen, then remember it. */
    method ResyncEffect(configs: ConfigsProp)
      modifies this
      ensures refConfigs == configs
      ensures old(refConfigs) != configs ==> configState == configs.fields
      ensures old(refConfigs) == configs ==> configState == old(configState)
      ensures latencyTestUrl == old(latencyTestUrl) && mutations == old(mutations)
    {
      if refConfigs != configs {
        configState := configs.fields;
      }
      refConfigs := configs;
    }

    /** Applies what a handler decided. */
    method Apply(c: Change)
      modifies this
      ensures configState == (if c.newState.Some? then c.newState.value else old(configState))
      ensures mutations == old(mutations) + (if c.mutation.Some? then [c.mutation.value] else [])
      ensures refConfigs == old(refConfigs) && latencyTestUrl == old(latencyTestUrl)
    {
      if c.newState.Some? {
        configState := c.newState.value;
      }
      if c.mutation.Some? {
        mutations := mutations + [c.mutation.value];
      }
    }

    method HandleChangeValue(name: string, value: Value)
      modifies this
      ensures var c := ChangeValue(old(configState), name, value);
        && configState == (if c.newState.Some? then c.newState.value else old(configState))
        && mutations == old(mutations) + (if c.mutation.Some? then [c.mutation.value] else [])
      ensures refConfigs == old(refConfigs) && latencyTestUrl == old(latencyTestUrl)
    {
      Apply(ChangeValue(configState, name, value));
    }

    method HandleSwitchOnChange(checked: bool)
      modifies this
      ensures configState == SetConfigState(old(configState), "allow-lan", Bool(checked))
      ensures mutations == old(mutations) + [map["allow-lan" := Bool(checked)]]
      ensures refConfigs == old(refConfigs) && latencyTestUrl == old(latencyTestUrl)
    {
      Apply(SwitchOnChange(configState, checked));
    }

    /** Leaving an input field; `thrown` is the message of the error the
      handler throws, if it does. */
    method HandleInputOnBlur(name: string, value: string) returns (thrown: Option<string>)
      modifies this
      ensures var e := InputOnBlur(name, value);
        && (thrown.Some? <==> e.Throw?)
        && (e.Throw? ==> thrown.value == e.message)
        && mutations == old(mutations) + (if e.Mutate? then [e.payload] else [])
        && latencyTestUrl == (if e.SetLatencyTestUrl? then e.url else old(latencyTestUrl))
      ensures configState == old(configState) && refConfigs == old(refConfigs)
    {
      thrown := None;
      var e := InputOnBlur(name, value);
      match e
      case Mutate(payload) =>
        mutations := mutations + [payload];
      case Ignore =>
      case SetLatencyTestUrl(url) =>
        latencyTestUrl := url;
      case Throw(message) =>
        thrown := Some(message);
    }
  }

  /** A prop that is the very object already seen leaves local edits in
      place, even after they have been made. */
  method EditSurvivesSameProp(configs: ConfigsProp) returns (state: map<string, Value>)
    ensures state == SetConfigState(configs.fields, "mode", Str("global"))
  {
    var page := new ConfigComponent(configs, "");
    page.HandleChangeValue("mode", Str("global"));
    page.ResyncEffect(configs);
    state := page.configState;
  }

  /** A new prop object replaces local edits, even one with equal contents. */
  method NewPropDiscardsEdit(configs: ConfigsProp) returns (state: map<string, Value>)
    ensures state == configs.fields
  {
    var page := new ConfigComponent(configs, "");
    page.HandleChangeValue("mode", Str("global"));
    var refetched := new ConfigsProp(configs.fields);
    page.ResyncEffect(refetched);
    state := page.configState;
  }
}
