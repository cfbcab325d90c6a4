/** The set-family hierarchy of predim/setFamily.py as one closed sum type,
    and its decoders from a parsed JSON tree. Every decoder is total: it
    returns the decoded node or the error the Python code would raise. */
module SetFamilies {
  import opened Json
  import opened Results
  import opened Common

  /** A node of a set-family tree. Every variant owns an `IdInfo`; the tree
      is built once by the decoders below and never changed afterwards. */
  datatype SetFamily =
    | DagSetFamily(info: IdInfo, values: seq<IdInfo>, containments: seq<(string, string)>)
    | BoolSetFamily(info: IdInfo)
    | ProdSetFamily(info: IdInfo, parts: seq<SetFamily>)

  /** The keys a node's decoder reads; any other key of a node is ignored. */
  const NodeKeys: set<string> :=
    {"type", "name", "label", "text", "link", "values", "containments", "parts"}

  /** The strings of pairs that `assertSeqOfPairs(_, str)` returned. */
  function StringPairs(ps: seq<(JsonVal, JsonVal)>): seq<(string, string)>
    requires forall i :: 0 <= i < |ps| ==> ps[i].0.JString? && ps[i].1.JString?
  {
    seq(|ps|, i requires 0 <= i < |ps| => (ps[i].0.s, ps[i].1.s))
  }

  /** `SetFamily.fromJson(obj)`: checks that `obj` is a mapping whose `type`
      is a string, then dispatches on that string. */
  function FromJson(obj: JsonVal): (r: Result<SetFamily>)
    decreases obj.JObject?, obj, 1
    ensures !IsMapping(obj) ==> r == Failure(AssertionFailed)
    ensures IsMapping(obj) && "type" !in obj.fields ==> r == Failure(MissingKey("type"))
    ensures IsMapping(obj) && "type" in obj.fields && !obj.fields["type"].JString? ==>
      r == Failure(WrongType(StrType, KindOf(obj.fields["type"])))
    ensures (IsMapping(obj) && "type" in obj.fields && obj.fields["type"].JString? &&
             obj.fields["type"].s !in {"dag", "bool", "prod"}) ==>
      r == Failure(UnrecognizedType(obj.fields["type"].s))
    ensures r.Success? ==>
      && IsMapping(obj) && "type" in obj.fields && obj.fields["type"].JString?
      && (r.value.DagSetFamily? <==> obj.fields["type"].s == "dag")
      && (r.value.BoolSetFamily? <==> obj.fields["type"].s == "bool")
      && (r.value.ProdSetFamily? <==> obj.fields["type"].s == "prod")
    ensures r.Success? ==> IdInfoFromJson(obj) == Success(r.value.info)
    ensures IsMapping(obj) && "type" in obj.fields && obj.fields["type"] == JString("dag") ==>
      r == DagFromJson(obj)
    ensures IsMapping(obj) && "type" in obj.fields && obj.fields["type"] == JString("bool") ==>
      r == BoolFromJson(obj)
    ensures IsMapping(obj) && "type" in obj.fields && obj.fields["type"] == JString("prod") ==>
      r == ProdFromJson(obj)
  {
    if !IsMapping(obj) then Failure(AssertionFailed)
    else if "type" !in obj.fields then Failure(MissingKey("type"))
    else
      var typeName :- AssertType(obj.fields["type"], StrType);
      if typeName.s == "dag" then DagFromJson(obj)
      else if typeName.s == "bool" then BoolFromJson(obj)
      else if typeName.s == "prod" then ProdFromJson(obj)
      else Failure(UnrecognizedType(typeName.s))
  }

  /** The value records of a Dag node: `valuesObj` must be a sequence but
      not a string, and each element is decoded by `IdInfo.fromJson`, in
      order; the first element that fails fails the whole list. */
  function ValuesFromJson(valuesObj: JsonVal): (r: Result<seq<IdInfo>>)
    ensures !valuesObj.JArray? ==> r == Failure(AssertionFailed)
    ensures r.Success? <==>
      valuesObj.JArray? && forall i :: 0 <= i < |valuesObj.elems| ==> IdInfoFromJson(valuesObj.elems[i]).Success?
    ensures r.Success? ==>
      |r.value| == |valuesObj.elems| &&
      forall i :: 0 <= i < |r.value| ==> IdInfoFromJson(valuesObj.elems[i]) == Success(r.value[i])
    ensures r.Failure? && valuesObj.JArray? ==>
      exists i :: 0 <= i < |valuesObj.elems| && IdInfoFromJson(valuesObj.elems[i]) == Failure(r.error) &&
        forall j :: 0 <= j < i ==> IdInfoFromJson(valuesObj.elems[j]).Success?
  {
    if !(!valuesObj.JString? && IsSequence(valuesObj)) then Failure(AssertionFailed)
    else
      var items := SeqItems(valuesObj);
      var rs := seq(|items|, i requires 0 <= i < |items| => IdInfoFromJson(items[i]));
      assert forall i :: 0 <= i < |items| ==> rs[i] == IdInfoFromJson(items[i]);
      Collect(rs)
  }

  /** The containment pairs of a Dag node: `assertSeqOfPairs(obj, str)`,
      with the pairs' strings taken out of their JSON wrappers. */
  function ContainmentsFromJson(containmentsObj: JsonVal): (r: Result<seq<(string, string)>>)
    ensures r.Success? <==> SeqOfPairs(containmentsObj, StrType).Success?
    ensures r.Success? ==>
      var ps := SeqOfPairs(containmentsObj, StrType).value;
      |r.value| == |ps| &&
      forall i :: 0 <= i < |ps| ==> ps[i] == (JString(r.value[i].0), JString(r.value[i].1))
    ensures r.Failure? ==> r.error == SeqOfPairs(containmentsObj, StrType).error
  {
    var ps :- SeqOfPairs(containmentsObj, StrType);
    Success(StringPairs(ps))
  }

  /** `DagSetFamily.fromJson(obj)`: the node's own info, then its `values`,
      then its `containments`; the first of these that fails fails the node. */
  function DagFromJson(obj: JsonVal): (r: Result<SetFamily>)
    ensures !IsMapping(obj) ==> r == Failure(AssertionFailed)
    ensures IsMapping(obj) && IdInfoFromJson(obj).Failure? ==> r == Failure(IdInfoFromJson(obj).error)
    ensures IsMapping(obj) && IdInfoFromJson(obj).Success? && "values" !in obj.fields ==>
      r == Failure(MissingKey("values"))
    ensures (IsMapping(obj) && IdInfoFromJson(obj).Success? && "values" in obj.fields &&
             ValuesFromJson(obj.fields["values"]).Failure?) ==>
      r == Failure(ValuesFromJson(obj.fields["values"]).error)
    ensures (IsMapping(obj) && IdInfoFromJson(obj).Success? && "values" in obj.fields &&
             ValuesFromJson(obj.fields["values"]).Success? && "containments" !in obj.fields) ==>
      r == Failure(MissingKey("containments"))
    ensures (IsMapping(obj) && IdInfoFromJson(obj).Success? && "values" in obj.fields &&
             ValuesFromJson(obj.fields["values"]).Success? && "containments" in obj.fields &&
             ContainmentsFromJson(obj.fields["containments"]).Failure?) ==>
      r == Failure(ContainmentsFromJson(obj.fields["containments"]).error)
    ensures r.Success? <==>
      && IsMapping(obj)
      && IdInfoFromJson(obj).Success?
      && "values" in obj.fields && ValuesFromJson(obj.fields["values"]).Success?
      && "containments" in obj.fields && ContainmentsFromJson(obj.fields["containments"]).Success?
    ensures r.Success? ==>
      r.value == DagSetFamily(IdInfoFromJson(obj).value, ValuesFromJson(obj.fields["values"]).value,
                              ContainmentsFromJson(obj.fields["containments"]).value)
  {
    if !IsMapping(obj) then Failure(AssertionFailed)
    else
      var info :- IdInfoFromJson(obj);
      if "values" !in obj.fields then Failure(MissingKey("values"))
      else
        var values :- ValuesFromJson(obj.fields["values"]);
        if "containments" !in obj.fields then Failure(MissingKey("containments"))
        else
          var containments :- ContainmentsFromJson(obj.fields["containments"]);
          Success(DagSetFamily(info, values, containments))
  }

  /** `BoolSetFamily.fromJson(obj)`: the node carries its info and nothing else. */
  function BoolFromJson(obj: JsonVal): (r: Result<SetFamily>)
    ensures r.Success? <==> IdInfoFromJson(obj).Success?
    ensures r.Success? ==> r.value == BoolSetFamily(IdInfoFromJson(obj).value)
    ensures r.Failure? ==> r.error == IdInfoFromJson(obj).error
  {
    var info :- IdInfoFromJson(obj);
    Success(BoolSetFamily(info))
  }

  /** `ProdSetFamily.fromJson(obj)`: the node's own info and a sequence of
      nested nodes, each decoded by `FromJson`. */
  function ProdFromJson(obj: JsonVal): (r: Result<SetFamily>)
    decreases obj.JObject?, obj, 0
    ensures !IsMapping(obj) ==> r == Failure(AssertionFailed)
    ensures IsMapping(obj) && IdInfoFromJson(obj).Failure? ==> r == Failure(IdInfoFromJson(obj).error)
    ensures IsMapping(obj) && IdInfoFromJson(obj).Success? && "parts" !in obj.fields ==>
      r == Failure(MissingKey("parts"))
    ensures (IsMapping(obj) && IdInfoFromJson(obj).Success? && "parts" in obj.fields &&
             !IsSequence(obj.fields["parts"])) ==>
      r == Failure(AssertionFailed)
    ensures r.Success? ==>
      && r.value.ProdSetFamily?
      && IdInfoFromJson(obj) == Success(r.value.info)
      && "parts" in obj.fields && IsSequence(obj.fields["parts"])
      && |r.value.parts| == |SeqItems(obj.fields["parts"])|
  {
    if !IsMapping(obj) then Failure(AssertionFailed)
    else
      var info :- IdInfoFromJson(obj);
      if "parts" !in obj.fields then Failure(MissingKey("parts"))
      else
        var partsObj := obj.fields["parts"];
        if !IsSequence(partsObj) then Failure(AssertionFailed)
        else
          var items := SeqItems(partsObj);
          var parts :- Collect(seq(|items|, i requires 0 <= i < |items| => FromJson(items[i])));
          Success(ProdSetFamily(info, parts))
  }

  /** A Prod node whose info and `parts` sequence are well formed decodes
      exactly when every part does: part i is the decode of element i, and
      otherwise the node fails with the error of the first failing part. */
  lemma ProdDecodesPartwise(obj: JsonVal)
    requires IsMapping(obj) && IdInfoFromJson(obj).Success?
    requires "parts" in obj.fields && IsSequence(obj.fields["parts"])
    ensures var items := SeqItems(obj.fields["parts"]);
      ProdFromJson(obj).Success? <==> forall i :: 0 <= i < |items| ==> FromJson(items[i]).Success?
    ensures var items := SeqItems(obj.fields["parts"]);
      ProdFromJson(obj).Success? ==>
        ProdFromJson(obj).value == ProdSetFamily(IdInfoFromJson(obj).value, ProdFromJson(obj).value.parts) &&
        |ProdFromJson(obj).value.parts| == |items| &&
        forall i :: 0 <= i < |items| ==> FromJson(items[i]) == Success(ProdFromJson(obj).value.parts[i])
    ensures var items := SeqItems(obj.fields["parts"]);
      ProdFromJson(obj).Failure? ==>
        exists i :: 0 <= i < |items| && FromJson(items[i]) == Failure(ProdFromJson(obj).error) &&
          forall j :: 0 <= j < i ==> FromJson(items[j]).Success?
  {
    var items := SeqItems(obj.fields["parts"]);
    var rs := seq(|items|, i requires 0 <= i < |items| => FromJson(items[i]));
    assert forall i :: 0 <= i < |items| ==> rs[i] == FromJson(items[i]);
    assert ProdFromJson(obj) == (var parts :- Collect(rs); Success(ProdSetFamily(IdInfoFromJson(obj).value, parts)));
  }

  /** Keys outside `NodeKeys` play no part in decoding a node: two mappings
      that agree on those keys decode alike. */
  lemma ExtraKeysIgnored(m1: map<string, JsonVal>, m2: map<string, JsonVal>)
    requires forall k :: k in NodeKeys ==> (k in m1 <==> k in m2)
    requires forall k :: k in NodeKeys && k in m1 ==> m1[k] == m2[k]
    ensures IdInfoFromJson(JObject(m1)) == IdInfoFromJson(JObject(m2))
    ensures FromJson(JObject(m1)) == FromJson(JObject(m2))
  {
  }

  /** A string is a sequence of one-character strings, so a two-character
      string is accepted as a containment pair of its two characters, and
      any other string is rejected by the unpacking. */
  lemma StringContainmentEntry(s: string)
    ensures PairOf(JString(s), StrType).Success? <==> |s| == 2
    ensures |s| == 2 ==> PairOf(JString(s), StrType).value == (JString([s[0]]), JString([s[1]]))
    ensures |s| < 2 ==> PairOf(JString(s), StrType) == Failure(NotEnoughValuesToUnpack(|s|))
    ensures |s| > 2 ==> PairOf(JString(s), StrType) == Failure(TooManyValuesToUnpack)
  {
  }

  /** A string given as the whole `containments` value is a sequence too:
      the empty string yields no pairs, and any other string fails on its
      first one-character item. */
  lemma StringContainments(s: string)
    ensures s == "" ==> ContainmentsFromJson(JString(s)) == Success([])
    ensures s != "" ==> ContainmentsFromJson(JString(s)) == Failure(NotEnoughValuesToUnpack(1))
  {
  }

  /** A string given as `parts` is accepted as a sequence: the empty string
      gives a product of no parts, and any other string fails because its
      first one-character item is not a mapping. */
  lemma StringParts(obj: JsonVal, s: string)
    requires IsMapping(obj) && IdInfoFromJson(obj).Success?
    requires "parts" in obj.fields && obj.fields["parts"] == JString(s)
    ensures s == "" ==> ProdFromJson(obj) == Success(ProdSetFamily(IdInfoFromJson(obj).value, []))
    ensures s != "" ==> ProdFromJson(obj) == Failure(AssertionFailed)
  {
  }
}
