/** Payload values, errors and the JSON round trip every checkpoint goes through. */
module Values {

  datatype Option<+T> = None | Some(value: T) {
    function GetOr(default: T): T {
      if Some? then value else default
    }

    function OrElse(other: Option<T>): Option<T> {
      if Some? then this else other
    }
  }

  /** A name and a message: what survives of an error once it has been stored. */
  datatype Err = Err(name: string, message: string)

  /** A JavaScript payload. `Date` carries its ISO text; `Undefined` is the absent value. */
  datatype Value =
    | Undefined
    | Null
    | Bool(flag: bool)
    | Num(n: int)
    | Str(text: string)
    | Date(iso: string)
    | Arr(items: seq<Value>)
    | Obj(fields: map<string, Value>)

  /** The JSON round trip: dates become text, absent items `null`, absent fields disappear. */
  function Clone(v: Value): Value {
    match v
    case Date(iso) => Str(iso)
    case Arr(items) =>
      Arr(seq(|items|, i requires 0 <= i < |items| => if items[i].Undefined? then Null else Clone(items[i])))
    case Obj(fields) => Obj(map k | k in fields && !fields[k].Undefined? :: Clone(fields[k]))
    case _ => v
  }

  /** A round trip never turns a present value into an absent one. */
  lemma CloneKeepsPresence(v: Value)
    ensures Clone(v).Undefined? <==> v.Undefined?
  {
  }

  /** One round trip is enough: a value that has been stored once reads back unchanged for ever. */
  lemma {:induction false} CloneIdempotent(v: Value)
    ensures Clone(Clone(v)) == Clone(v)
  {
    match v
    case Arr(items) =>
      var once := Clone(v).items;
      var twice := Clone(Clone(v)).items;
      forall i | 0 <= i < |items| ensures twice[i] == once[i] {
        CloneKeepsPresence(items[i]);
        CloneIdempotent(items[i]);
        assert once[i] == if items[i].Undefined? then Null else Clone(items[i]);
        assert twice[i] == if once[i].Undefined? then Null else Clone(once[i]);
      }
      assert twice == once;
    case Obj(fields) =>
      var once := Clone(v).fields;
      var twice := Clone(Clone(v)).fields;
      forall k | k in once ensures k in twice && twice[k] == once[k] {
        CloneKeepsPresence(fields[k]);
        CloneIdempotent(fields[k]);
      }
      assert twice == once;
    case _ =>
  }

  /** A value that JSON carries as it is: no date in it, and nothing absent inside it. */
  predicate JsonValue(v: Value) {
    match v
    case Date(_) => false
    case Arr(items) => forall i :: 0 <= i < |items| ==> !items[i].Undefined? && JsonValue(items[i])
    case Obj(fields) => forall k :: k in fields ==> !fields[k].Undefined? && JsonValue(fields[k])
    case _ => true
  }

  /** The round trip leaves exactly these values alone. */
  lemma {:induction false} CloneFixesJson(v: Value)
    ensures Clone(v) == v <==> JsonValue(v)
  {
    match v
    case Arr(items) =>
      var once := Clone(v).items;
      forall i | 0 <= i < |items| ensures once[i] == items[i] <==> !items[i].Undefined? && JsonValue(items[i]) {
        CloneFixesJson(items[i]);
      }
      assert JsonValue(v) ==> once == items;
    case Obj(fields) =>
      var once := Clone(v).fields;
      forall k | k in fields
        ensures k in once && once[k] == fields[k] <==> !fields[k].Undefined? && JsonValue(fields[k])
      {
        CloneFixesJson(fields[k]);
      }
      assert JsonValue(v) ==> once == fields;
    case _ =>
  }

  /** Part by part: places stay where they are, an absent item becomes `null`, and an absent field disappears. */
  lemma ClonedParts(v: Value)
    ensures v.Arr? ==>
              && Clone(v).Arr? && |Clone(v).items| == |v.items|
              && forall i :: 0 <= i < |v.items| ==>
                   Clone(v).items[i] == if v.items[i].Undefined? then Null else Clone(v.items[i])
    ensures v.Obj? ==>
              && Clone(v).Obj? && (forall k :: k in Clone(v).fields <==> k in v.fields && !v.fields[k].Undefined?)
              && forall k :: k in Clone(v).fields ==> Clone(v).fields[k] == Clone(v.fields[k])
    ensures JsonValue(Clone(v))
  {
    CloneIdempotent(v);
    CloneFixesJson(Clone(v));
  }
}
