/**
 * The JavaScript values that flow through the invocation layer: call arguments,
 * option and metadata objects, callbacks, errors and live call handles, together
 * with JavaScript truthiness and the compaction of argument lists.
 */
module JsValues {

  datatype Option<T> = None | Some(value: T)

  /** A synchronous outcome: a value, or an exception thrown at the point of call. */
  datatype Result<T> = Ok(value: T) | Thrown(error: Value)

  /**
   * A live call handle. It is an event emitter: `header` is what its 'metadata'
   * event carries (None when the call never emits one) and `status` what its
   * 'status' event carries.
   */
  datatype CallHandle = CallHandle(id: nat, header: Option<Value>, status: Option<Value>)

  datatype Value =
    | Undefined
    | Null
    | Bool(b: bool)
    | Num(n: int)
    | Str(s: string)
    | Fn(id: nat)                             // a function supplied by the application
    | Continuation                            // a callback created inside the layer or a library it uses
    | Plain(fields: map<string, Value>)       // a plain object
    | Meta(entries: map<string, seq<Value>>)  // a metadata object: any object whose prototype has `getMap`
    | Error(message: string)                  // an Error instance
    | Call(handle: CallHandle)                // a live call handle returned by the transport
    | Obj(id: nat)                            // any other object: a message, a list, a promise

  /** JavaScript truthiness: `undefined`, `null`, `false`, `0` and `''` are falsy. */
  predicate Truthy(v: Value) {
    match v
    case Undefined => false
    case Null => false
    case Bool(b) => b
    case Num(n) => n != 0
    case Str(s) => s != ""
    case _ => true
  }

  /** `typeof v === 'function'`. */
  predicate IsFunction(v: Value) {
    v.Fn? || v.Continuation?
  }

  /**
   * The properties a merge copies from `v`. Only a plain object's fields are
   * modelled; a string, an array or another object is taken to have none.
   */
  function OwnFields(v: Value): map<string, Value> {
    if v.Plain? then v.fields else map[]
  }

  /** `_.compact`: the list without its falsy entries, in the original order. */
  function Compact(s: seq<Value>): (r: seq<Value>)
    ensures |r| <= |s|
    ensures forall i :: 0 <= i < |r| ==> Truthy(r[i])
  {
    if s == [] then []
    else (if Truthy(s[0]) then [s[0]] else []) + Compact(s[1..])
  }

  /** Compaction keeps exactly the truthy entries. */
  lemma {:induction false} CompactKeepsExactlyTruthy(s: seq<Value>, v: Value)
    ensures v in Compact(s) <==> v in s && Truthy(v)
  {
    if s != [] {
      CompactKeepsExactlyTruthy(s[1..], v);
      assert s == [s[0]] + s[1..];
    }
  }

  /** Compaction distributes over concatenation, so it never reorders entries. */
  lemma {:induction false} CompactAppend(a: seq<Value>, b: seq<Value>)
    ensures Compact(a + b) == Compact(a) + Compact(b)
  {
    if a == [] {
      assert a + b == b;
    } else {
      assert (a + b)[0] == a[0];
      assert (a + b)[1..] == a[1..] + b;
      CompactAppend(a[1..], b);
    }
  }

  /** A list whose entries are all truthy is forwarded as it is. */
  lemma {:induction false} CompactAllTruthy(s: seq<Value>)
    requires forall i :: 0 <= i < |s| ==> Truthy(s[i])
    ensures Compact(s) == s
  {
    if s != [] {
      CompactAllTruthy(s[1..]);
    }
  }

  /** After entries that are all truthy, a last entry is kept exactly when it is truthy. */
  lemma {:induction false} CompactTruthyThen(s: seq<Value>, x: Value)
    requires forall i :: 0 <= i < |s| ==> Truthy(s[i])
    ensures Compact(s + [x]) == if Truthy(x) then s + [x] else s
  {
    if s == [] {
      assert s + [x] == [x];
      assert Compact([x]) == (if Truthy(x) then [x] else []) + Compact([]);
    } else {
      assert (s + [x])[1..] == s[1..] + [x];
      CompactTruthyThen(s[1..], x);
      assert s == [s[0]] + s[1..];
    }
  }
}
