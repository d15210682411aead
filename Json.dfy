/**
 * JSON values as `JSON.parse` produces them, and the structured-output schema
 * vocabulary (`Type.OBJECT`, `Type.ARRAY`, `Type.STRING`, `Type.INTEGER`, `properties`,
 * `items`, `required`) with the meaning "a value conforms to a schema".
 */
module Json {
  import opened Wrappers

  /** A parsed JSON value; an object is the map its last occurrence of each key builds. */
  datatype Json =
    | JNull
    | JBool(b: bool)
    | JNumber(n: int)
    | JString(s: string)
    | JArray(elems: seq<Json>)
    | JObject(fields: map<string, Json>)

  /** A response schema built from the four schema types the application uses. */
  datatype Schema =
    | StringSchema
    | IntegerSchema
    | ArraySchema(items: Schema)
    | ObjectSchema(properties: seq<Property>, required: seq<string>)

  /** One entry of an object schema's `properties`. */
  datatype Property = Property(name: string, schema: Schema)

  /**
   * `j` has the shape `s` asks for: strings are strings, integers are numbers, every
   * array element conforms to `items`, an object has every `required` key, and every
   * listed property that is present conforms to its own schema. Extra keys are allowed.
   */
  predicate Conforms(j: Json, s: Schema)
    decreases s
  {
    match s
    case StringSchema => j.JString?
    case IntegerSchema => j.JNumber?
    case ArraySchema(items) =>
      j.JArray? && forall i :: 0 <= i < |j.elems| ==> Conforms(j.elems[i], items)
    case ObjectSchema(properties, required) =>
      && j.JObject?
      && (forall k :: k in required ==> k in j.fields)
      && (forall p :: p in properties && p.name in j.fields ==> Conforms(j.fields[p.name], p.schema))
  }

  /** Writes every element of `xs` with `write`, in order. */
  function WriteAll<T>(xs: seq<T>, write: T -> Json): (js: seq<Json>)
    ensures |js| == |xs| && forall i :: 0 <= i < |xs| ==> js[i] == write(xs[i])
  {
    seq(|xs|, i requires 0 <= i < |xs| => write(xs[i]))
  }

  /** Reading back what was written gives the original elements, when `read` undoes `write` on single values. */
  lemma ReadAllWriteAll<T>(xs: seq<T>, write: T -> Json, read: Json -> Option<T>)
    requires forall x :: read(write(x)) == Some(x)
    ensures ReadAll(WriteAll(xs, write), read) == Some(xs)
  {
    var r := ReadAll(WriteAll(xs, write), read);
    assert r.Some? && |r.value| == |xs|;
    forall i | 0 <= i < |xs| ensures r.value[i] == xs[i] {
      assert read(write(xs[i])) == Some(r.value[i]);
    }
    assert r.value == xs;
  }

  /** Elementwise conformance of an array is readability of every element, when the two agree on single values. */
  lemma ElementsConformIffReadable<T>(js: seq<Json>, s: Schema, read: Json -> Option<T>)
    requires forall j :: Conforms(j, s) <==> read(j).Some?
    ensures (forall i :: 0 <= i < |js| ==> Conforms(js[i], s)) <==> ReadAll(js, read).Some?
  {
  }

  /** `j` is an object holding every key that the object schema `s` requires. */
  predicate HasRequired(j: Json, s: Schema)
    requires s.ObjectSchema?
  {
    j.JObject? && forall k :: k in s.required ==> k in j.fields
  }

  lemma ConformingObjectHasRequired(j: Json, s: Schema)
    requires s.ObjectSchema? && Conforms(j, s)
    ensures HasRequired(j, s)
  {
  }

  /**
   * At every level, an object schema requires each property it declares, and only those,
   * in declaration order, and declares no key twice.
   */
  predicate RequiresEveryProperty(s: Schema)
    decreases s
  {
    match s
    case StringSchema => true
    case IntegerSchema => true
    case ArraySchema(items) => RequiresEveryProperty(items)
    case ObjectSchema(properties, required) =>
      && |properties| == |required|
      && (forall i :: 0 <= i < |required| ==> properties[i].name == required[i])
      && (forall i, k :: 0 <= i < k < |required| ==> required[i] != required[k])
      && forall i :: 0 <= i < |properties| ==> RequiresEveryProperty(properties[i].schema)
  }

  /** The set of keys an object schema requires (none for other schemas). */
  function RequiredKeys(s: Schema): set<string> {
    if s.ObjectSchema? then set k | k in s.required else {}
  }

  /**
   * Reads every element of `js` with `read`; absent as soon as one element cannot be read.
   * The application's record reading uses it for each array of the plan.
   */
  function ReadAll<T>(js: seq<Json>, read: Json -> Option<T>): (r: Option<seq<T>>)
    ensures r.Some? <==> forall i :: 0 <= i < |js| ==> read(js[i]).Some?
    ensures r.Some? ==> |r.value| == |js| && forall i :: 0 <= i < |js| ==> read(js[i]) == Some(r.value[i])
  {
    if js == [] then Some([])
    else match read(js[0])
      case None => None
      case Some(x) =>
        match ReadAll(js[1..], read)
        case None => None
        case Some(xs) => Some([x] + xs)
  }
}
