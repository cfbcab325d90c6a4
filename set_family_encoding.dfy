/** An encoder from set-family trees back to JSON trees, used as the
    decoders' partner: decoding the encoding of a tree gives the tree back,
    and every tree the decoders produce can be encoded. */
module SetFamilyEncoding {
  import opened Json
  import opened Results
  import opened Common
  import opened SetFamilies

  /** The keys `IdInfo.fromJson` reads. */
  const IdKeys: set<string> := {"name", "label", "text", "link"}

  /** A tree every `IdInfo` of which has its label filled in, as the
      decoder always does. */
  predicate Encodable(f: SetFamily)
  {
    && f.info.labelStr.Some?
    && (f.DagSetFamily? ==> forall i :: 0 <= i < |f.values| ==> f.values[i].labelStr.Some?)
    && (f.ProdSetFamily? ==> forall i :: 0 <= i < |f.parts| ==> Encodable(f.parts[i]))
  }

  /** The mapping entries of an identity record; absent text and link are
      left out. */
  function IdInfoFields(info: IdInfo): (m: map<string, JsonVal>)
    requires info.labelStr.Some?
    ensures m.Keys <= IdKeys
  {
    var m := map["name" := JString(info.name), "label" := JString(info.labelStr.value)];
    var m := if info.text.Some? then m["text" := JString(info.text.value)] else m;
    if info.link.Some? then m["link" := JString(info.link.value)] else m
  }

  function ToJson(f: SetFamily): JsonVal
    requires Encodable(f)
    decreases f
  {
    match f
    case DagSetFamily(info, values, cs) =>
      JObject(IdInfoFields(info) + map[
        "type" := JString("dag"),
        "values" := JArray(seq(|values|, i requires 0 <= i < |values| => JObject(IdInfoFields(values[i])))),
        "containments" := JArray(seq(|cs|, i requires 0 <= i < |cs| => JArray([JString(cs[i].0), JString(cs[i].1)])))])
    case BoolSetFamily(info) =>
      JObject(IdInfoFields(info) + map["type" := JString("bool")])
    case ProdSetFamily(info, parts) =>
      JObject(IdInfoFields(info) + map[
        "type" := JString("prod"),
        "parts" := JArray(seq(|parts|, i requires 0 <= i < |parts| => ToJson(parts[i])))])
  }

  /** An identity record decodes back from its entries, whatever other
      entries sit beside them. */
  lemma IdInfoRoundTrip(info: IdInfo, extra: map<string, JsonVal>)
    requires info.labelStr.Some?
    requires extra.Keys !! IdKeys
    ensures IdInfoFromJson(JObject(IdInfoFields(info) + extra)) == Success(info)
  {
  }

  /** The value records of a Dag node decode back from their encoding. */
  lemma ValuesRoundTrip(values: seq<IdInfo>)
    requires forall i :: 0 <= i < |values| ==> values[i].labelStr.Some?
    ensures ValuesFromJson(JArray(seq(|values|, i requires 0 <= i < |values| => JObject(IdInfoFields(values[i]))))) ==
            Success(values)
  {
    var vs := seq(|values|, i requires 0 <= i < |values| => JObject(IdInfoFields(values[i])));
    forall i | 0 <= i < |values|
      ensures IdInfoFromJson(vs[i]) == Success(values[i])
    {
      IdInfoRoundTrip(values[i], map[]);
      assert IdInfoFields(values[i]) + map[] == IdInfoFields(values[i]);
    }
    assert ValuesFromJson(JArray(vs)).value == values;
  }

  /** The containment pairs of a Dag node decode back from their encoding
      as two-element lists of strings. */
  lemma ContainmentsRoundTrip(cs: seq<(string, string)>)
    ensures ContainmentsFromJson(JArray(seq(|cs|, i requires 0 <= i < |cs| => JArray([JString(cs[i].0), JString(cs[i].1)])))) ==
            Success(cs)
  {
    var csObj := JArray(seq(|cs|, i requires 0 <= i < |cs| => JArray([JString(cs[i].0), JString(cs[i].1)])));
    forall i | 0 <= i < |cs|
      ensures PairOf(SeqItems(csObj)[i], StrType) == Success((JString(cs[i].0), JString(cs[i].1)))
    {
      var ys := SeqItems(SeqItems(csObj)[i]);
      assert ys == [JString(cs[i].0), JString(cs[i].1)];
      assert forall j :: 0 <= j < |ys| ==> KindOf(ys[j]) == StrType;
    }
    assert ContainmentsFromJson(csObj).value == cs;
  }

  /** A Dag node decodes back from its encoding. */
  lemma DagRoundTrip(f: SetFamily)
    requires f.DagSetFamily? && Encodable(f)
    ensures FromJson(ToJson(f)) == Success(f)
  {
    var obj := ToJson(f);
    IdInfoRoundTrip(f.info, obj.fields - IdKeys);
    assert obj.fields == IdInfoFields(f.info) + (obj.fields - IdKeys);
    ValuesRoundTrip(f.values);
    ContainmentsRoundTrip(f.containments);
  }

  /** Decoding the encoding of a tree gives the tree back. */
  lemma {:induction false} RoundTrip(f: SetFamily)
    requires Encodable(f)
    ensures FromJson(ToJson(f)) == Success(f)
    decreases f
  {
    match f
    case DagSetFamily(_, _, _) =>
      DagRoundTrip(f);
    case BoolSetFamily(info) =>
      IdInfoRoundTrip(info, map["type" := JString("bool")]);
    case ProdSetFamily(info, parts) =>
      var obj := ToJson(f);
      IdInfoRoundTrip(info, obj.fields - IdKeys);
      assert obj.fields == IdInfoFields(info) + (obj.fields - IdKeys);
      var items := SeqItems(obj.fields["parts"]);
      forall i | 0 <= i < |parts|
        ensures FromJson(items[i]) == Success(parts[i])
      {
        RoundTrip(parts[i]);
      }
      ProdDecodesPartwise(obj);
      assert FromJson(obj).value.parts == parts;
  }

  /** Every tree the decoders produce has all its labels filled in. */
  lemma {:induction false} DecodedIsEncodable(obj: JsonVal)
    requires FromJson(obj).Success?
    ensures Encodable(FromJson(obj).value)
    decreases obj.JObject?, obj
  {
    var f := FromJson(obj).value;
    if f.ProdSetFamily? {
      ProdDecodesPartwise(obj);
      var items := SeqItems(obj.fields["parts"]);
      forall i | 0 <= i < |f.parts|
        ensures Encodable(f.parts[i])
      {
        DecodedIsEncodable(items[i]);
      }
    }
  }

  /** Re-encoding a decoded tree loses nothing: it decodes to the same tree. */
  lemma DecodeEncodeDecode(obj: JsonVal)
    requires FromJson(obj).Success?
    ensures Encodable(FromJson(obj).value)
    ensures FromJson(ToJson(FromJson(obj).value)) == FromJson(obj)
  {
    DecodedIsEncodable(obj);
    RoundTrip(FromJson(obj).value);
  }
}
