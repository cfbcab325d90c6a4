/** The shape-checking guards of predim/common.py and the `IdInfo` record
    with its decoder. The guards are generic in the expected type `t`,
    which is a `Kind` here. */
module Common {
  import opened Json
  import opened Results

  /** `assertType(value, t)`: the value itself when it has type `t`,
      otherwise a type error naming both types. */
  function AssertType(value: JsonVal, t: Kind): (r: Result<JsonVal>)
    ensures r.Success? <==> KindOf(value) == t
    ensures r.Success? ==> r.value == value
    ensures r.Failure? ==> r.error == WrongType(t, KindOf(value))
  {
    if KindOf(value) == t then Success(value) else Failure(WrongType(t, KindOf(value)))
  }

  /** `assertOptionalType(value, t)`: the value itself when it is None or has
      type `t`, otherwise a type error naming both types. */
  function AssertOptionalType(value: JsonVal, t: Kind): (r: Result<JsonVal>)
    ensures r.Success? <==> value == JNull || KindOf(value) == t
    ensures r.Success? ==> r.value == value
    ensures r.Failure? ==> r.error == WrongOptionalType(t, KindOf(value))
  {
    if value.JNull? || KindOf(value) == t then Success(value)
    else Failure(WrongOptionalType(t, KindOf(value)))
  }

  /** The index of the first item that does not have type `t`, or `|xs|`
      when there is none. */
  function FirstMismatch(xs: seq<JsonVal>, t: Kind): (i: nat)
    ensures i <= |xs|
    ensures forall j :: 0 <= j < i ==> KindOf(xs[j]) == t
    ensures i < |xs| ==> KindOf(xs[i]) != t
  {
    if xs == [] then 0
    else if KindOf(xs[0]) != t then 0
    else 1 + FirstMismatch(xs[1..], t)
  }

  /** What `assertSeq(value, t)` returns or raises. */
  function CheckSeq(value: JsonVal, t: Kind): (r: Result<JsonVal>)
    ensures !IsSequence(value) ==> r == Failure(NotASequence(KindOf(value)))
    ensures r.Success? <==>
      IsSequence(value) && forall j :: 0 <= j < |SeqItems(value)| ==> KindOf(SeqItems(value)[j]) == t
    ensures r.Success? ==> r.value == value
    ensures r.Failure? && IsSequence(value) ==>
      exists i :: 0 <= i < |SeqItems(value)| && KindOf(SeqItems(value)[i]) != t &&
        (forall j :: 0 <= j < i ==> KindOf(SeqItems(value)[j]) == t) &&
        r.error == WrongElementType(i, t, KindOf(SeqItems(value)[i]))
  {
    if !IsSequence(value) then Failure(NotASequence(KindOf(value)))
    else
      var xs := SeqItems(value);
      var i := FirstMismatch(xs, t);
      if i < |xs| then Failure(WrongElementType(i, t, KindOf(xs[i]))) else Success(value)
  }

  /** `assertSeq(value, t)`: rejects a non-sequence, then scans the items in
      order and stops at the first one that does not have type `t`. */
  method AssertSeq(value: JsonVal, t: Kind) returns (r: Result<JsonVal>)
    ensures r == CheckSeq(value, t)
  {
    if !IsSequence(value) {
      return Failure(NotASequence(KindOf(value)));
    }
    var xs := SeqItems(value);
    for i := 0 to |xs|
      invariant forall j :: 0 <= j < i ==> KindOf(xs[j]) == t
    {
      if KindOf(xs[i]) != t {
        return Failure(WrongElementType(i, t, KindOf(xs[i])));
      }
    }
    return Success(value);
  }

  /** One step of `assertSeqOfPairs`: `y1, y2 = assertSeq(x, t)`. */
  function PairOf(x: JsonVal, t: Kind): (r: Result<(JsonVal, JsonVal)>)
    ensures r.Success? <==> CheckSeq(x, t).Success? && |SeqItems(x)| == 2
    ensures r.Success? ==> r.value == (SeqItems(x)[0], SeqItems(x)[1])
    ensures r.Success? ==> KindOf(r.value.0) == t && KindOf(r.value.1) == t
    ensures CheckSeq(x, t).Failure? ==> r == CheckSeq(x, t).PropagateFailure()
    ensures CheckSeq(x, t).Success? && |SeqItems(x)| < 2 ==>
      r == Failure(NotEnoughValuesToUnpack(|SeqItems(x)|))
    ensures CheckSeq(x, t).Success? && |SeqItems(x)| > 2 ==> r == Failure(TooManyValuesToUnpack)
  {
    var y :- CheckSeq(x, t);
    var ys := SeqItems(y);
    if |ys| < 2 then Failure(NotEnoughValuesToUnpack(|ys|))
    else if |ys| > 2 then Failure(TooManyValuesToUnpack)
    else Success((ys[0], ys[1]))
  }

  /** What `assertSeqOfPairs(value, t)` returns or raises. */
  function SeqOfPairs(value: JsonVal, t: Kind): (r: Result<seq<(JsonVal, JsonVal)>>)
    ensures !IsSequence(value) ==> r == Failure(NotASequence(KindOf(value)))
    ensures r.Success? <==>
      IsSequence(value) && forall i :: 0 <= i < |SeqItems(value)| ==> PairOf(SeqItems(value)[i], t).Success?
    ensures r.Success? ==>
      |r.value| == |SeqItems(value)| &&
      forall i :: 0 <= i < |r.value| ==>
        var ys := SeqItems(SeqItems(value)[i]);
        |ys| == 2 && r.value[i] == (ys[0], ys[1]) && KindOf(ys[0]) == t && KindOf(ys[1]) == t
    ensures r.Failure? && IsSequence(value) ==>
      exists i :: 0 <= i < |SeqItems(value)| && PairOf(SeqItems(value)[i], t) == Failure(r.error) &&
        forall j :: 0 <= j < i ==> PairOf(SeqItems(value)[j], t).Success?
  {
    if !IsSequence(value) then Failure(NotASequence(KindOf(value)))
    else
      var xs := SeqItems(value);
      var rs := seq(|xs|, i requires 0 <= i < |xs| => PairOf(xs[i], t));
      assert forall i :: 0 <= i < |xs| ==> rs[i] == PairOf(xs[i], t);
      Collect(rs)
  }

  /** `assertSeqOfPairs(value, t)`: rejects a non-sequence, then builds the
      list of pairs by appending one pair per item, stopping at the first
      item that is not a two-item sequence of type-`t` values. */
  method AssertSeqOfPairs(value: JsonVal, t: Kind) returns (r: Result<seq<(JsonVal, JsonVal)>>)
    ensures r == SeqOfPairs(value, t)
  {
    if !IsSequence(value) {
      return Failure(NotASequence(KindOf(value)));
    }
    var xs := SeqItems(value);
    ghost var rs := seq(|xs|, i requires 0 <= i < |xs| => PairOf(xs[i], t));
    var v2: seq<(JsonVal, JsonVal)> := [];
    for i := 0 to |xs|
      invariant |v2| == i
      invariant forall j :: 0 <= j < i ==> rs[j] == Success(v2[j])
    {
      var y := AssertSeq(xs[i], t);
      if y.Failure? {
        CollectFirstFailure(rs, i);
        return Failure(y.error);
      }
      var ys := SeqItems(y.value);
      if |ys| < 2 {
        CollectFirstFailure(rs, i);
        return Failure(NotEnoughValuesToUnpack(|ys|));
      }
      if |ys| > 2 {
        CollectFirstFailure(rs, i);
        return Failure(TooManyValuesToUnpack);
      }
      v2 := v2 + [(ys[0], ys[1])];
    }
    assert Collect(rs).value == v2;
    return Success(v2);
  }

  /** The identity record every set family and every Dag value carries. The
      record's `label` is optional, but its decoder always fills it in. */
  datatype IdInfo = IdInfo(name: string, labelStr: Option<string>, text: Option<string>, link: Option<string>)

  /** None for None, the string for a string. */
  function OptionalString(v: JsonVal): Option<string>
    requires v.JNull? || v.JString?
  {
    if v.JString? then Some(v.s) else None
  }

  /** `IdInfo.fromJson(obj)`: `name` is a required string, `label` defaults
      to `name` and must otherwise be a string, and `text` and `link` are
      optional strings. */
  function IdInfoFromJson(obj: JsonVal): (r: Result<IdInfo>)
    ensures !IsMapping(obj) ==> r == Failure(AssertionFailed)
    ensures IsMapping(obj) && "name" !in obj.fields ==> r == Failure(MissingKey("name"))
    ensures IsMapping(obj) && "name" in obj.fields && !obj.fields["name"].JString? ==>
      r == Failure(WrongType(StrType, KindOf(obj.fields["name"])))
    ensures (IsMapping(obj) && "name" in obj.fields && obj.fields["name"].JString? &&
             "label" in obj.fields && !obj.fields["label"].JString?) ==>
      r == Failure(WrongType(StrType, KindOf(obj.fields["label"])))
    ensures (IsMapping(obj) && "name" in obj.fields && obj.fields["name"].JString? &&
             ("label" in obj.fields ==> obj.fields["label"].JString?) &&
             "text" in obj.fields && !obj.fields["text"].JNull? && !obj.fields["text"].JString?) ==>
      r == Failure(WrongOptionalType(StrType, KindOf(obj.fields["text"])))
    ensures (IsMapping(obj) && "name" in obj.fields && obj.fields["name"].JString? &&
             ("label" in obj.fields ==> obj.fields["label"].JString?) &&
             ("text" in obj.fields ==> obj.fields["text"].JNull? || obj.fields["text"].JString?) &&
             "link" in obj.fields && !obj.fields["link"].JNull? && !obj.fields["link"].JString?) ==>
      r == Failure(WrongOptionalType(StrType, KindOf(obj.fields["link"])))
    ensures r.Success? <==>
      && IsMapping(obj)
      && "name" in obj.fields && obj.fields["name"].JString?
      && ("label" in obj.fields ==> obj.fields["label"].JString?)
      && ("text" in obj.fields ==> obj.fields["text"].JNull? || obj.fields["text"].JString?)
      && ("link" in obj.fields ==> obj.fields["link"].JNull? || obj.fields["link"].JString?)
    ensures r.Success? ==> r.value.name == obj.fields["name"].s
    ensures r.Success? ==>
      r.value.labelStr == Some(if "label" in obj.fields then obj.fields["label"].s else r.value.name)
    ensures r.Success? ==>
      (r.value.text.Some? <==> "text" in obj.fields && obj.fields["text"].JString?) &&
      (r.value.text.Some? ==> r.value.text.value == obj.fields["text"].s)
    ensures r.Success? ==>
      (r.value.link.Some? <==> "link" in obj.fields && obj.fields["link"].JString?) &&
      (r.value.link.Some? ==> r.value.link.value == obj.fields["link"].s)
  {
    if !IsMapping(obj) then Failure(AssertionFailed)
    else if "name" !in obj.fields then Failure(MissingKey("name"))
    else
      var name :- AssertType(obj.fields["name"], StrType);
      var lab :- AssertType(if "label" in obj.fields then obj.fields["label"] else name, StrType);
      var text :- AssertOptionalType(Get(obj.fields, "text"), StrType);
      var link :- AssertOptionalType(Get(obj.fields, "link"), StrType);
      Success(IdInfo(name.s, Some(lab.s), OptionalString(text), OptionalString(link)))
  }
}
