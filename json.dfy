/**
 * JSON values as Go's encoding/json sees a `map[string]any` payload. Numbers are
 * kept as integers: no payload shaped by the client does arithmetic on them.
 */
module Json {

  import opened Wrappers

  datatype Value =
    | Null
    | Bool(b: bool)
    | Num(n: int)
    | Str(s: string)
    | Arr(items: seq<Value>)
    | Obj(fields: map<string, Value>)

  /**
   * A Go slice `[]any`: `Nil` is the nil slice (encoded as `null`), `Made` a slice that
   * was allocated, possibly empty (encoded as an array).
   */
  datatype Slice = Nil | Made(elems: seq<Value>) {

    function Len(): nat {
      if Nil? then 0 else |elems|
    }

    /** How encoding/json writes the slice. */
    function Encode(): (v: Value)
      ensures v.Null? <==> Nil?
      ensures Made? ==> v == Arr(elems)
    {
      if Nil? then Null else Arr(elems)
    }
  }

  /** Reading back an encoded slice: the inverse of `Slice.Encode`. */
  function DecodeSlice(v: Value): (s: Slice)
    ensures v.Arr? ==> s.Encode() == v
  {
    match v
    case Arr(items) => Made(items)
    case _ => Nil
  }

  /** Encoding then decoding a slice gives it back, nil or not. */
  lemma SliceRoundTrip(s: Slice)
    ensures DecodeSlice(s.Encode()) == s
  {
  }

  /** The string held by `attrs[key]` when that attribute is a JSON string (Go's `.(string)` assertion). */
  function StringAttr(attrs: map<string, Value>, key: string): (r: Option<string>)
    ensures r.Some? <==> key in attrs && attrs[key].Str?
    ensures r.Some? ==> attrs[key] == Str(r.value)
  {
    if key in attrs && attrs[key].Str? then Some(attrs[key].s) else None
  }
}
