/** The content transform of the manifest copy in the bundle descriptor
    (webpack.config.ts): parse `src/manifest.json`, spread it into a new
    object, override `description` and `version` with the package metadata
    npm exposes in the environment, and serialise the result. */
module Manifest {
  import opened JsValues
  import opened Json

  /** A property value of a JavaScript object before serialisation. */
  datatype Property = Undefined | Defined(json: Json)

  /** `process.env.npm_package_*`: a string, or `undefined` when npm did not
      set it (a package without a description, or a run outside npm). */
  function FromEnv(value: Option<string>): Property
  {
    match value
    case Some(s) => Defined(String(s))
    case None => Undefined
  }

  /** `{...parsed, description: description, version: version}`: the keys
      written after the spread win over the spread ones. */
  function Overridden(parsed: Json, description: Option<string>, version: Option<string>): map<string, Property>
  {
    var own := OwnProperties(parsed);
    (map k | k in own :: Defined(own[k]))["description" := FromEnv(description)]["version" := FromEnv(version)]
  }

  /** `JSON.stringify` leaves out every property whose value is `undefined`;
      the result is the JSON object that the serialised text denotes. */
  function Serialised(obj: map<string, Property>): (r: map<string, Json>)
    ensures forall k :: k in r <==> k in obj && obj[k].Defined?
    ensures forall k :: k in r ==> r[k] == obj[k].json
  {
    map k | k in obj && obj[k].Defined? :: obj[k].json
  }

  /** The manifest as it is written to the output directory, given the
      parsed source manifest and the package description and version. */
  function Transform(source: Json, description: Option<string>, version: Option<string>): (out: Json)
    ensures out.Object?
    ensures forall k :: k != "description" && k != "version" ==>
      (k in out.members <==> k in OwnProperties(source))
    ensures forall k :: k in out.members && k != "description" && k != "version" ==>
      out.members[k] == OwnProperties(source)[k]
    ensures "description" in out.members <==> description.Some?
    ensures description.Some? ==> out.members["description"] == String(description.value)
    ensures "version" in out.members <==> version.Some?
    ensures version.Some? ==> out.members["version"] == String(version.value)
  {
    Object(Serialised(Overridden(source, description, version)))
  }

  /** A manifest that already carries the package description and version,
      or lacks them exactly when npm gives none, is left as it is. */
  lemma CarryingMetadataIsFixed(members: map<string, Json>, description: Option<string>, version: Option<string>)
    requires "description" in members <==> description.Some?
    requires description.Some? ==> members["description"] == String(description.value)
    requires "version" in members <==> version.Some?
    requires version.Some? ==> members["version"] == String(version.value)
    ensures Transform(Object(members), description, version) == Object(members)
  {
    var out := Transform(Object(members), description, version).members;
    assert OwnProperties(Object(members)) == members;
    forall k
      ensures (k in out <==> k in members) && (k in out ==> out[k] == members[k])
    {
      if k == "description" {
      } else if k == "version" {
      } else {
        assert k in out <==> k in OwnProperties(Object(members));
      }
    }
    assert out == members;
  }

  /** Running the transform over its own output with the same metadata
      changes nothing: the copy is stable across rebuilds. */
  lemma TransformIdempotent(source: Json, description: Option<string>, version: Option<string>)
    ensures Transform(Transform(source, description, version), description, version)
         == Transform(source, description, version)
  {
    var once := Transform(source, description, version);
    CarryingMetadataIsFixed(once.members, description, version);
  }

  /** A description absent from the package removes one the source manifest
      had, rather than keeping it. */
  lemma MissingDescriptionDropsKey(members: map<string, Json>, version: Option<string>)
    requires "description" in members
    ensures "description" !in Transform(Object(members), None, version).members
  {
  }

  /** An example: metadata `{name: "ext", version: "1.2.3",
      description: "x"}` and source `{"manifest_version": 3, "name":
      "placeholder"}`. */
  lemma Example()
    ensures Transform(Object(map["manifest_version" := Number("3"), "name" := String("placeholder")]),
                      Some("x"), Some("1.2.3"))
         == Object(map["manifest_version" := Number("3"), "name" := String("placeholder"),
                       "description" := String("x"), "version" := String("1.2.3")])
  {
    var source := map["manifest_version" := Number("3"), "name" := String("placeholder")];
    var expected := source["description" := String("x")]["version" := String("1.2.3")];
    var out := Transform(Object(source), Some("x"), Some("1.2.3")).members;
    assert OwnProperties(Object(source)) == source;
    forall k
      ensures (k in out <==> k in expected) && (k in out ==> out[k] == expected[k])
    {
      if k == "description" {
      } else if k == "version" {
      } else {
        assert k in out <==> k in source;
      }
    }
    assert out == expected;
    assert expected == map["manifest_version" := Number("3"), "name" := String("placeholder"),
                           "description" := String("x"), "version" := String("1.2.3")];
  }
}
