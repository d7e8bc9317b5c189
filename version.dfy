/** What `fetchVersion` does with the daemon's answer to `/version`: fill in
    the defaults, derive `plus_pro` from the version text and normalise
    `premium`, overwriting the fields of one object in turn. */
module VersionApi {
  import opened Js

  const DefaultVersion := "v1.0.0"
  const PlusProMarker := "PlusPro"

  /** Looking up `indexOf` on a truthy version that is not a string gives
      `undefined`, and calling it throws. */
  datatype VersionError = IndexOfNotAFunction

  /** The object used when the query gives no answer: its version and
      `premium` are falsy, so both defaults apply. */
  function NoAnswer(): (o: map<string, Value>)
    ensures o.Keys == {"version", "plus_pro", "premium"}
    ensures !TruthyProp(o, "version") && !TruthyProp(o, "premium")
  {
    map["version" := Str(""), "plus_pro" := Bool(false), "premium" := Bool(false)]
  }

  /** The version after the default is filled in: the daemon's version if it
      is truthy, `v1.0.0` otherwise. */
  function FilledVersion(json: map<string, Value>): (v: Value)
    ensures Truthy(v)
    ensures TruthyProp(json, "version") ==> v == json["version"]
    ensures !TruthyProp(json, "version") ==> v == Str(DefaultVersion)
  {
    if TruthyProp(json, "version") then json["version"] else Str(DefaultVersion)
  }

  /** The fields of the object as `fetchVersion` returns it, or the error it
      throws. */
  function Normalised(json: map<string, Value>): (r: Result<map<string, Value>, VersionError>)
    ensures r.Success? <==> FilledVersion(json).Str?
    ensures r.Success? ==>
      var o := r.value;
      && o.Keys == json.Keys + {"version", "plus_pro", "premium"}
      && o["version"] == FilledVersion(json)
      && o["version"].Str? && o["version"].s != ""
      && (o["plus_pro"] == Bool(true) <==> Occurs(o["version"].s, PlusProMarker))
      && o["plus_pro"].Bool?
      && (TruthyProp(json, "premium") ==> o["premium"] == json["premium"])
      && (!TruthyProp(json, "premium") ==> o["premium"] == Bool(false))
      && (forall k :: k in json && k !in {"version", "plus_pro", "premium"} ==> o[k] == json[k])
  {
    // Fill in the default version.
    var v := FilledVersion(json);
    var j1 := json["version" := v];
    if !v.Str? then Failure(IndexOfNotAFunction)
    else
      // Flag plus_pro from the filled-in version.
      var j2 := j1["plus_pro" := Bool(IndexOf(v.s, PlusProMarker) > -1)];
      IndexOfFindsOccurrence(v.s, PlusProMarker);
      // Default premium to false.
      var j3 := j2["premium" := if TruthyProp(j2, "premium") then j2["premium"] else Bool(false)];
      Success(j3)
  }

  /** `fetchVersion` after the query: `answer` is the daemon's object, or
      `null` for no answer.  The answer object itself is overwritten and
      returned; with no answer a fresh default object is. */
  method FetchVersion(answer: JsObject?) returns (r: Result<JsObject, VersionError>)
    modifies answer
    ensures var start := if answer == null then NoAnswer() else old(answer.props);
      && (r.Success? <==> Normalised(start).Success?)
      && (r.Success? ==> r.value.props == Normalised(start).value)
    ensures answer != null && r.Success? ==> r.value == answer
    ensures answer != null && r.Failure? ==> answer.props == old(answer.props)
    ensures answer == null && r.Success? ==> fresh(r.value)
  {
    var json: JsObject;
    if answer == null {
      json := new JsObject(NoAnswer());
    } else {
      json := answer;
    }
    json.props := json.props["version" := FilledVersion(json.props)];
    var version := json.props["version"];
    if !version.Str? {
      return Failure(IndexOfNotAFunction);
    }
    json.props := json.props["plus_pro" := Bool(IndexOf(version.s, PlusProMarker) > -1)];
    var premium := if TruthyProp(json.props, "premium") then json.props["premium"] else Bool(false);
    json.props := json.props["premium" := premium];
    r := Success(json);
  }

  /** With no answer the result is `v1.0.0`, `plus_pro` false, `premium` false. */
  lemma NoAnswerDefaults()
    ensures Normalised(NoAnswer()) ==
      Success(map["version" := Str(DefaultVersion), "plus_pro" := Bool(false), "premium" := Bool(false)])
  {
    assert IndexOf(DefaultVersion, PlusProMarker) == -1;
    var o := Normalised(NoAnswer()).value;
    assert o["plus_pro"] == Bool(false);
    assert o == map["version" := Str(DefaultVersion), "plus_pro" := Bool(false), "premium" := Bool(false)];
  }

  /** Whatever `plus_pro` the daemon sent is overridden. */
  lemma PlusProOverridden(json: map<string, Value>, sent: Value)
    ensures Normalised(json["plus_pro" := sent]) == Normalised(json)
  {
    var j := json["plus_pro" := sent];
    assert FilledVersion(j) == FilledVersion(json);
    if FilledVersion(json).Str? {
      assert Normalised(j).value == Normalised(json).value;
    }
  }

  /** Any non-empty version string is kept, and it is flagged exactly when
      it names the PlusPro build. */
  lemma PlusProDetected(json: map<string, Value>, s: string)
    requires "version" in json && json["version"] == Str(s) && s != ""
    ensures Normalised(json).Success?
    ensures Normalised(json).value["version"] == Str(s)
    ensures Normalised(json).value["plus_pro"] == Bool(Occurs(s, PlusProMarker))
  {
  }

  /** A version without the marker is not flagged. */
  lemma PlusProAbsent(json: map<string, Value>, s: string)
    requires "version" in json && json["version"] == Str(s) && s != ""
    requires !Occurs(s, PlusProMarker)
    ensures Normalised(json).Success? && Normalised(json).value["plus_pro"] == Bool(false)
  {
  }

  /** A missing or falsy version (`""`, `null`, `false`, 0, `NaN`) is
      replaced by the default, which does not name the PlusPro build. */
  lemma EmptyVersionDefaulted(json: map<string, Value>)
    requires "version" !in json || !Truthy(json["version"])
    ensures Normalised(json).Success?
    ensures Normalised(json).value["version"] == Str(DefaultVersion)
    ensures Normalised(json).value["plus_pro"] == Bool(false)
  {
    assert IndexOf(DefaultVersion, PlusProMarker) == -1;
    IndexOfFindsOccurrence(DefaultVersion, PlusProMarker);
  }

  /** Two daemon versions, one of each kind. */
  lemma PlusProExamples()
    ensures Normalised(map["version" := Str("v2023.01.01-PlusPro")]).value["plus_pro"] == Bool(true)
    ensures Normalised(map["version" := Str("v1.18.0")]).value["plus_pro"] == Bool(false)
  {
    assert OccursAt("v2023.01.01-PlusPro", PlusProMarker, 12);
    var plain := "v1.18.0";
    assert plain[..7][0] == 'v';
    assert IndexOf(plain, PlusProMarker) == -1;
    IndexOfFindsOccurrence(plain, PlusProMarker);
  }
}
