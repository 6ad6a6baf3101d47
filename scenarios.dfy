/** The service's test suite replayed on the model: the settings document with one `...Fetch`
    member, the API answer that member dereferences, a missing and an unparseable document. */
module Scenarios {
  import opened JsonValues
  import opened SeqUtil
  import opened JsonPath
  import opened Aggregation
  import opened Configuration

  const ApiUrl: string := "http://happypratik.com/api/configuration"

  const ComplexObject: Json := Obj([("prop1", Num(1)), ("prop2", Str("x"))])

  /** The `configuration` document served for `settings.json`. */
  const Settings: Json :=
    Obj([("complexObject", ComplexObject), ("simpleNumber", Num(42)), ("simpleString", Str("abc")),
         ("endpointFetch", Str(ApiUrl))])

  function Entry(k: string, v: string): Json {
    Obj([("key", Str(k)), ("value", Str(v))])
  }

  /** The `httpapiconfiguration` array served for the API URL. */
  const ApiEntries: Json :=
    Arr([Entry("lscs.project.key", "developerlabs"), Entry("lscs.document.path", "/document/path"),
         Entry("lscs.v1.url", "http://happypratik.com/v1"), Entry("lscs.cors.enabled", "true"),
         Entry("lscs.cors.url", "http://happypratik.com/corsproxy.php?url=")])

  /** Settings after the API answer is written at `$.endpointFetch`. */
  const Merged: Json :=
    Obj([("complexObject", ComplexObject), ("simpleNumber", Num(42)), ("simpleString", Str("abc")),
         ("endpointFetch", ApiEntries)])

  const SettingsKeys: seq<string> := ["complexObject", "simpleNumber", "simpleString", "endpointFetch"]

  const FirstPaths: seq<string> :=
    ["$.complexObject.prop1", "$.complexObject.prop2", "$.simpleNumber", "$.simpleString"]

  const EntryPaths: seq<string> :=
    ["$.endpointFetch[0].key", "$.endpointFetch[0].value", "$.endpointFetch[1].key", "$.endpointFetch[1].value",
     "$.endpointFetch[2].key", "$.endpointFetch[2].value", "$.endpointFetch[3].key", "$.endpointFetch[3].value",
     "$.endpointFetch[4].key", "$.endpointFetch[4].value"]

  /** The leaves of the settings document that hold plain values. */
  const PlainSettingsLeaves: seq<Path> :=
    [[Key("complexObject"), Key("prop1")], [Key("complexObject"), Key("prop2")], [Key("simpleNumber")], [Key("simpleString")]]

  const FetchLeaf: Path := [Key("endpointFetch")]

  /** An object with two members holding scalars has those two members as its leaves. */
  lemma PairLeaves(p: Path, a: string, x: Json, b: string, y: Json)
    requires !x.Obj? && !x.Arr? && !y.Obj? && !y.Arr?
    ensures TreeLeaves(p, Obj([(a, x), (b, y)])) == [p + [Key(a)], p + [Key(b)]]
  {
    var ms := [(a, x), (b, y)];
    var parts := seq(|ms|, i requires 0 <= i < |ms| => var (k, v) := ms[i]; assert v < ms[i]; TreeLeaves(p + [Key(k)], v));
    assert parts == [[p + [Key(a)]]] + [[p + [Key(b)]]];
    FlattenCons([p + [Key(a)]], [[p + [Key(b)]]]);
    FlattenCons([p + [Key(b)]], []);
  }

  /** The leaves of a four-member object are those of its members, one after another. */
  lemma ObjLeaves4(p: Path, k0: string, v0: Json, k1: string, v1: Json, k2: string, v2: Json, k3: string, v3: Json)
    ensures TreeLeaves(p, Obj([(k0, v0), (k1, v1), (k2, v2), (k3, v3)])) ==
            TreeLeaves(p + [Key(k0)], v0) + TreeLeaves(p + [Key(k1)], v1) +
            TreeLeaves(p + [Key(k2)], v2) + TreeLeaves(p + [Key(k3)], v3)
  {
    var ms := [(k0, v0), (k1, v1), (k2, v2), (k3, v3)];
    var parts := seq(|ms|, i requires 0 <= i < |ms| => var (k, v) := ms[i]; assert v < ms[i]; TreeLeaves(p + [Key(k)], v));
    var a0, a1, a2, a3 := TreeLeaves(p + [Key(k0)], v0), TreeLeaves(p + [Key(k1)], v1),
                          TreeLeaves(p + [Key(k2)], v2), TreeLeaves(p + [Key(k3)], v3);
    assert parts == [a0] + ([a1] + ([a2] + ([a3] + [])));
    FlattenCons(a0, [a1] + ([a2] + ([a3] + [])));
    FlattenCons(a1, [a2] + ([a3] + []));
    FlattenCons(a2, [a3] + []);
    FlattenCons(a3, []);
  }

  /** The leaves of a five-element array are those of its elements, one after another. */
  lemma ArrLeaves5(p: Path, x0: Json, x1: Json, x2: Json, x3: Json, x4: Json)
    ensures TreeLeaves(p, Arr([x0, x1, x2, x3, x4])) ==
            TreeLeaves(p + [Idx(0)], x0) + TreeLeaves(p + [Idx(1)], x1) + TreeLeaves(p + [Idx(2)], x2) +
            TreeLeaves(p + [Idx(3)], x3) + TreeLeaves(p + [Idx(4)], x4)
  {
    var xs := [x0, x1, x2, x3, x4];
    var parts := seq(|xs|, i requires 0 <= i < |xs| => TreeLeaves(p + [Idx(i)], xs[i]));
    assert parts == [parts[0], parts[1], parts[2], parts[3], parts[4]];
    Flatten5(parts[0], parts[1], parts[2], parts[3], parts[4]);
  }

  lemma Flatten5(a0: seq<Path>, a1: seq<Path>, a2: seq<Path>, a3: seq<Path>, a4: seq<Path>)
    ensures Flatten([a0, a1, a2, a3, a4]) == a0 + a1 + a2 + a3 + a4
  {
    assert [a0, a1, a2, a3, a4] == [a0] + [a1, a2, a3, a4];
    assert [a1, a2, a3, a4] == [a1] + [a2, a3, a4];
    assert [a2, a3, a4] == [a2] + [a3, a4];
    assert [a3, a4] == [a3] + [a4];
    assert [a4] == [a4] + [];
    FlattenCons(a0, [a1, a2, a3, a4]);
    FlattenCons(a1, [a2, a3, a4]);
    FlattenCons(a2, [a3, a4]);
    FlattenCons(a3, [a4]);
    FlattenCons(a4, []);
  }

  lemma SettingsLeaves()
    ensures TreeLeaves([], Settings) == PlainSettingsLeaves + [FetchLeaf]
  {
    ObjLeaves4([], "complexObject", ComplexObject, "simpleNumber", Num(42), "simpleString", Str("abc"),
               "endpointFetch", Str(ApiUrl));
    assert [] + [Key("complexObject")] == [Key("complexObject")];
    assert [] + [Key("simpleNumber")] == [Key("simpleNumber")];
    assert [] + [Key("simpleString")] == [Key("simpleString")];
    assert [] + [Key("endpointFetch")] == [Key("endpointFetch")];
    PairLeaves([Key("complexObject")], "prop1", Num(1), "prop2", Str("x"));
    assert [Key("complexObject")] + [Key("prop1")] == [Key("complexObject"), Key("prop1")];
    assert [Key("complexObject")] + [Key("prop2")] == [Key("complexObject"), Key("prop2")];
    assert TreeLeaves([Key("simpleNumber")], Num(42)) == [[Key("simpleNumber")]];
    assert TreeLeaves([Key("simpleString")], Str("abc")) == [[Key("simpleString")]];
    assert TreeLeaves(FetchLeaf, Str(ApiUrl)) == [FetchLeaf];
  }

  /** A leaf whose last segment is not a `...Fetch` member is never dereferenced. */
  lemma PlainLeaf(isUrl: string -> bool, t: Json, p: Path)
    requires p != [] && (p[|p| - 1].Idx? || !EndsWith(p[|p| - 1].name, "Fetch"))
    ensures !Dereferences(isUrl, Get(t, p), p)
  {
    DereferencesIff(isUrl, Get(t, p), p);
  }

  lemma KeyString(a: string)
    ensures Stringify([Key(a)]) == "$." + a
  {
    assert [Key(a)][1..] == [];
    assert SegsString([Key(a)]) == "." + a;
  }

  lemma KeysString(a: string, b: string)
    ensures Stringify([Key(a), Key(b)]) == "$." + a + "." + b
  {
    var p := [Key(a), Key(b)];
    assert p[1..] == [Key(b)] && p[1..][1..] == [];
    assert SegsString(p[1..]) == "." + b;
  }

  lemma SettingsStrings()
    ensures PathStrings(PlainSettingsLeaves) == FirstPaths
  {
    var ps := PathStrings(PlainSettingsLeaves);
    assert ps[0] == "$.complexObject.prop1" by { SettingsString0(); }
    assert ps[1] == "$.complexObject.prop2" by { SettingsString1(); }
    assert ps[2] == "$.simpleNumber" by { SettingsString2(); }
    assert ps[3] == "$.simpleString" by { SettingsString3(); }
  }

  lemma SettingsString0()
    ensures Stringify([Key("complexObject"), Key("prop1")]) == "$.complexObject.prop1"
  {
    KeysString("complexObject", "prop1");
    assert "$." + "complexObject" + "." + "prop1" == "$.complexObject.prop1";
  }

  lemma SettingsString1()
    ensures Stringify([Key("complexObject"), Key("prop2")]) == "$.complexObject.prop2"
  {
    KeysString("complexObject", "prop2");
    assert "$." + "complexObject" + "." + "prop2" == "$.complexObject.prop2";
  }

  lemma SettingsString2()
    ensures Stringify([Key("simpleNumber")]) == "$.simpleNumber"
  {
    KeyString("simpleNumber");
    assert "$." + "simpleNumber" == "$.simpleNumber";
  }

  lemma SettingsString3()
    ensures Stringify([Key("simpleString")]) == "$.simpleString"
  {
    KeyString("simpleString");
    assert "$." + "simpleString" == "$.simpleString";
  }

  lemma SettingsFetch(isUrl: string -> bool)
    requires isUrl(ApiUrl)
    ensures Get(Settings, FetchLeaf) == Some(Str(ApiUrl))
    ensures Dereferences(isUrl, Get(Settings, FetchLeaf), FetchLeaf)
  {
    KeyString("endpointFetch");
    assert EndsWith("$.endpointFetch", "Fetch");
    var ms := Settings.members;
    assert ms[0].0 != "endpointFetch" && ms[1].0 != "endpointFetch" && ms[2].0 != "endpointFetch";
    MemberIndexAt(ms, "endpointFetch", 3);
    assert [Key("endpointFetch")][1..] == [];
  }

  lemma FirstPathsDistinct()
    ensures NoDup([] + FirstPaths)
  {
    assert [] + FirstPaths == FirstPaths;
  }

  /** The four plain leaves of `settings.json` record their paths and start no load. */
  lemma SettingsPlain(isUrl: string -> bool, loaded: seq<string>)
    ensures Recorded(isUrl, Settings, PlainSettingsLeaves) == FirstPaths
    ensures Nested(isUrl, loaded, Settings, PlainSettingsLeaves) == []
  {
    var ls := PlainSettingsLeaves;
    assert !EndsWith("prop1", "Fetch") && !EndsWith("prop2", "Fetch");
    assert !EndsWith("simpleNumber", "Fetch") && !EndsWith("simpleString", "Fetch");
    forall i | 0 <= i < |ls|
      ensures !Dereferences(isUrl, Get(Settings, ls[i]), ls[i])
    {
      PlainLeaf(isUrl, Settings, ls[i]);
    }
    AllPlain(isUrl, loaded, Settings, ls);
    SettingsStrings();
  }

  /** `endpointFetch`, a URL under a `...Fetch` name, records nothing and starts the one nested load. */
  lemma SettingsFetchLeaf(isUrl: string -> bool, loaded: seq<string>)
    requires isUrl(ApiUrl) && ApiUrl !in loaded
    ensures Recorded(isUrl, Settings, [FetchLeaf]) == []
    ensures Nested(isUrl, loaded, Settings, [FetchLeaf]) == [NestedLoad(ApiUrl, FetchLeaf)]
  {
    SettingsFetch(isUrl);
    assert [FetchLeaf][1..] == [];
  }

  /** The walk over `settings.json` meets these leaves: the four plain ones record their paths
      and `endpointFetch` starts the one nested load. */
  lemma SettingsFiltered(isUrl: string -> bool)
    requires isUrl(ApiUrl)
    ensures Recorded(isUrl, Settings, PlainSettingsLeaves + [FetchLeaf]) == FirstPaths
    ensures Nested(isUrl, ["settings.json"], Settings, PlainSettingsLeaves + [FetchLeaf]) == [NestedLoad(ApiUrl, FetchLeaf)]
  {
    var loaded := ["settings.json"];
    SettingsPlain(isUrl, loaded);
    SettingsFetchLeaf(isUrl, loaded);
    RecordedConcat(isUrl, Settings, PlainSettingsLeaves, [FetchLeaf]);
    NestedConcat(isUrl, loaded, Settings, PlainSettingsLeaves, [FetchLeaf]);
  }

  /** The pass over `settings.json` records the four plain leaves and dereferences `endpointFetch`. */
  lemma SettingsPass(isUrl: string -> bool)
    requires isUrl(ApiUrl)
    ensures Walk(isUrl, ["settings.json"], Settings, Children(Settings, []), []) ==
            (FirstPaths, [NestedLoad(ApiUrl, [Key("endpointFetch")])])
  {
    SettingsWellFormed();
    PassFromRoot(isUrl, ["settings.json"], Settings, []);
    SettingsLeaves();
    SettingsFiltered(isUrl);
    FirstPathsDistinct();
    AppendAbsentFresh([], FirstPaths);
  }

  // ---------------------------------------------------------------- the nested load

  /** The two leaves of the i-th entry of the API answer once it sits at `$.endpointFetch`. */
  function EntryLeafPair(i: nat): seq<Path> {
    [[Key("endpointFetch"), Idx(i), Key("key")], [Key("endpointFetch"), Idx(i), Key("value")]]
  }

  const EntryLeafPaths: seq<Path> :=
    EntryLeafPair(0) + EntryLeafPair(1) + EntryLeafPair(2) + EntryLeafPair(3) + EntryLeafPair(4)

  /** Writing the API answer at `$.endpointFetch` of the settings gives the merged tree. */
  lemma MergeAtFetch()
    ensures Target(Some(FetchLeaf), Some(Settings), ApiEntries) == Some(Merged)
  {
    var ms := Settings.members;
    assert ms[0].0 != "endpointFetch" && ms[1].0 != "endpointFetch" && ms[2].0 != "endpointFetch";
    MemberIndexAt(ms, "endpointFetch", 3);
    assert FetchLeaf[1..] == [];
    assert Set(Settings, FetchLeaf, ApiEntries) == Obj(ms[3 := ("endpointFetch", ApiEntries)]);
    assert ms[3 := ("endpointFetch", ApiEntries)] == Merged.members;
  }

  lemma EntryLeaves(i: nat, k: string, v: string)
    ensures TreeLeaves(FetchLeaf + [Idx(i)], Entry(k, v)) == EntryLeafPair(i)
  {
    var p := FetchLeaf + [Idx(i)];
    PairLeaves(p, "key", Str(k), "value", Str(v));
    assert p + [Key("key")] == [Key("endpointFetch"), Idx(i), Key("key")];
    assert p + [Key("value")] == [Key("endpointFetch"), Idx(i), Key("value")];
  }

  lemma EntriesLeaves()
    ensures TreeLeaves(FetchLeaf, ApiEntries) == EntryLeafPaths
  {
    ArrLeaves5(FetchLeaf, Entry("lscs.project.key", "developerlabs"), Entry("lscs.document.path", "/document/path"),
               Entry("lscs.v1.url", "http://happypratik.com/v1"), Entry("lscs.cors.enabled", "true"),
               Entry("lscs.cors.url", "http://happypratik.com/corsproxy.php?url="));
    EntryLeaves(0, "lscs.project.key", "developerlabs");
    EntryLeaves(1, "lscs.document.path", "/document/path");
    EntryLeaves(2, "lscs.v1.url", "http://happypratik.com/v1");
    EntryLeaves(3, "lscs.cors.enabled", "true");
    EntryLeaves(4, "lscs.cors.url", "http://happypratik.com/corsproxy.php?url=");
  }

  lemma MergedLeaves()
    ensures TreeLeaves([], Merged) == PlainSettingsLeaves + EntryLeafPaths
  {
    ObjLeaves4([], "complexObject", ComplexObject, "simpleNumber", Num(42), "simpleString", Str("abc"),
               "endpointFetch", ApiEntries);
    assert [] + [Key("complexObject")] == [Key("complexObject")];
    assert [] + [Key("simpleNumber")] == [Key("simpleNumber")];
    assert [] + [Key("simpleString")] == [Key("simpleString")];
    assert [] + [Key("endpointFetch")] == [Key("endpointFetch")];
    PairLeaves([Key("complexObject")], "prop1", Num(1), "prop2", Str("x"));
    assert [Key("complexObject")] + [Key("prop1")] == [Key("complexObject"), Key("prop1")];
    assert [Key("complexObject")] + [Key("prop2")] == [Key("complexObject"), Key("prop2")];
    assert TreeLeaves([Key("simpleNumber")], Num(42)) == [[Key("simpleNumber")]];
    assert TreeLeaves([Key("simpleString")], Str("abc")) == [[Key("simpleString")]];
    EntriesLeaves();
  }

  /** The stringified paths of the i-th entry. */
  function EntryPathPair(i: nat): seq<string>
    requires i < 10
  {
    var at := "$.endpointFetch[" + ["0123456789"[i]] + "]";
    [at + ".key", at + ".value"]
  }

  lemma EntryString(i: nat, k: string)
    requires i < 10
    ensures Stringify([Key("endpointFetch"), Idx(i), Key(k)]) == "$.endpointFetch[" + ["0123456789"[i]] + "]" + ("." + k)
  {
    var d := ["0123456789"[i]];
    DigitString(i);
    ThreeSegsString("endpointFetch", i, k);
    EntrySpelled(d, k);
  }

  lemma DigitString(i: nat)
    requires i < 10
    ensures NatToString(i) == ["0123456789"[i]]
  {
    assert "0123456789"[i] == ('0' as int + i) as char;
  }

  lemma ThreeSegsString(a: string, i: nat, k: string)
    ensures Stringify([Key(a), Idx(i), Key(k)]) == "$" + ("." + a + ("[" + NatToString(i) + "]" + ("." + k)))
  {
    var p := [Key(a), Idx(i), Key(k)];
    assert p[1..] == [Idx(i), Key(k)];
    assert p[1..][1..] == [Key(k)];
    assert p[1..][1..][1..] == [];
    assert SegsString([Key(k)]) == "." + k;
    assert SegsString(p[1..]) == "[" + NatToString(i) + "]" + ("." + k);
  }

  lemma EntrySpelled(d: string, k: string)
    ensures "$" + ("." + "endpointFetch" + ("[" + d + "]" + ("." + k))) == "$.endpointFetch[" + d + "]" + ("." + k)
  {
    assert "$" + "." + "endpointFetch" + "[" == "$.endpointFetch[";
  }

  lemma EntryPairStrings(i: nat)
    requires i < 10
    ensures PathStrings(EntryLeafPair(i)) == EntryPathPair(i)
  {
    EntryString(i, "key");
    EntryString(i, "value");
    assert "." + "key" == ".key" && "." + "value" == ".value";
  }

  lemma EntryPathsSpelled()
    ensures EntryPaths == EntryPathPair(0) + EntryPathPair(1) + EntryPathPair(2) + EntryPathPair(3) + EntryPathPair(4)
  {
    EntryPairSpelled(0, "$.endpointFetch[0].key", "$.endpointFetch[0].value");
    EntryPairSpelled(1, "$.endpointFetch[1].key", "$.endpointFetch[1].value");
    EntryPairSpelled(2, "$.endpointFetch[2].key", "$.endpointFetch[2].value");
    EntryPairSpelled(3, "$.endpointFetch[3].key", "$.endpointFetch[3].value");
    EntryPairSpelled(4, "$.endpointFetch[4].key", "$.endpointFetch[4].value");
  }

  lemma EntryPairSpelled(i: nat, k: string, v: string)
    requires i < 10
    requires k == "$.endpointFetch[" + ["0123456789"[i]] + "]" + ".key"
    requires v == "$.endpointFetch[" + ["0123456789"[i]] + "]" + ".value"
    ensures EntryPathPair(i) == [k, v]
  {
  }

  lemma EntryStrings()
    ensures PathStrings(EntryLeafPaths) == EntryPaths
  {
    var e := EntryLeafPair(0) + EntryLeafPair(1) + EntryLeafPair(2) + EntryLeafPair(3);
    var d := EntryLeafPair(0) + EntryLeafPair(1) + EntryLeafPair(2);
    var c := EntryLeafPair(0) + EntryLeafPair(1);
    PathStringsConcat(e, EntryLeafPair(4));
    PathStringsConcat(d, EntryLeafPair(3));
    PathStringsConcat(c, EntryLeafPair(2));
    PathStringsConcat(EntryLeafPair(0), EntryLeafPair(1));
    EntryPairStrings(0);
    EntryPairStrings(1);
    EntryPairStrings(2);
    EntryPairStrings(3);
    EntryPairStrings(4);
    EntryPathsSpelled();
  }

  /** No leaf of the merged tree is dereferenced: the fourteen leaves are all recorded. */
  lemma MergedFiltered(isUrl: string -> bool, loaded: seq<string>)
    ensures Recorded(isUrl, Merged, PlainSettingsLeaves + EntryLeafPaths) == FirstPaths + EntryPaths
    ensures Nested(isUrl, loaded, Merged, PlainSettingsLeaves + EntryLeafPaths) == []
  {
    MergedPlain(isUrl, loaded);
    MergedEntries(isUrl, loaded);
    RecordedConcat(isUrl, Merged, PlainSettingsLeaves, EntryLeafPaths);
    NestedConcat(isUrl, loaded, Merged, PlainSettingsLeaves, EntryLeafPaths);
  }

  lemma MergedPlain(isUrl: string -> bool, loaded: seq<string>)
    ensures Recorded(isUrl, Merged, PlainSettingsLeaves) == FirstPaths
    ensures Nested(isUrl, loaded, Merged, PlainSettingsLeaves) == []
  {
    var ls := PlainSettingsLeaves;
    assert !EndsWith("prop1", "Fetch") && !EndsWith("prop2", "Fetch");
    assert !EndsWith("simpleNumber", "Fetch") && !EndsWith("simpleString", "Fetch");
    forall i | 0 <= i < |ls|
      ensures !Dereferences(isUrl, Get(Merged, ls[i]), ls[i])
    {
      PlainLeaf(isUrl, Merged, ls[i]);
    }
    AllPlain(isUrl, loaded, Merged, ls);
    SettingsStrings();
  }

  lemma MergedEntries(isUrl: string -> bool, loaded: seq<string>)
    ensures Recorded(isUrl, Merged, EntryLeafPaths) == EntryPaths
    ensures Nested(isUrl, loaded, Merged, EntryLeafPaths) == []
  {
    var es := EntryLeafPaths;
    assert !EndsWith("key", "Fetch") && !EndsWith("value", "Fetch");
    forall i | 0 <= i < |es|
      ensures !Dereferences(isUrl, Get(Merged, es[i]), es[i])
    {
      PlainLeaf(isUrl, Merged, es[i]);
    }
    AllPlain(isUrl, loaded, Merged, es);
    EntryStrings();
  }

  lemma AllPathsDistinct()
    ensures NoDup(FirstPaths + EntryPaths)
  {
  }

  lemma EntryWellFormed(k: string, v: string)
    ensures WellFormed(Entry(k, v))
  {
    var ms := Entry(k, v).members;
    assert ms[0].0 != ms[1].0;
  }

  lemma MergedWellFormed()
    ensures WellFormed(Merged) && NonEmptyContainer(Merged)
  {
    EntryWellFormed("lscs.project.key", "developerlabs");
    EntryWellFormed("lscs.document.path", "/document/path");
    EntryWellFormed("lscs.v1.url", "http://happypratik.com/v1");
    EntryWellFormed("lscs.cors.enabled", "true");
    EntryWellFormed("lscs.cors.url", "http://happypratik.com/corsproxy.php?url=");
    var xs := ApiEntries.items;
    assert forall i :: 0 <= i < |xs| ==> WellFormed(xs[i]);
    assert WellFormed(ApiEntries);
    assert WellFormed(ComplexObject);
  }

  /** The pass after the nested load adds the ten entry paths behind the four already recorded. */
  lemma MergedPass(isUrl: string -> bool, loaded: seq<string>)
    ensures Walk(isUrl, loaded, Merged, Children(Merged, []), FirstPaths) == (FirstPaths + EntryPaths, [])
  {
    MergedWellFormed();
    PassFromRoot(isUrl, loaded, Merged, FirstPaths);
    MergedLeaves();
    MergedFiltered(isUrl, loaded);
    RepeatedPathsSkipped();
  }

  /** The four paths already present are not recorded twice. */
  lemma RepeatedPathsSkipped()
    ensures AppendAbsent(FirstPaths, FirstPaths + EntryPaths) == FirstPaths + EntryPaths
  {
    AppendAbsentConcat(FirstPaths, FirstPaths, EntryPaths);
    AppendAbsentPresent(FirstPaths, FirstPaths);
    AllPathsDistinct();
    AppendAbsentFresh(FirstPaths, EntryPaths);
  }

  // ---------------------------------------------------------------- lookups on the merged tree

  lemma MergedLookups()
    ensures Step(Merged, Key("complexObject")) == Some(ComplexObject)
    ensures Step(Merged, Key("simpleNumber")) == Some(Num(42))
    ensures Step(Merged, Key("simpleString")) == Some(Str("abc"))
    ensures Step(Merged, Key("unknown")) == None
  {
    var ms := Merged.members;
    MemberIndexAt(ms, "complexObject", 0);
    MemberIndexAt(ms, "simpleNumber", 1);
    MemberIndexAt(ms, "simpleString", 2);
    assert ms[0].0 != "unknown" && ms[1].0 != "unknown" && ms[2].0 != "unknown" && ms[3].0 != "unknown";
    assert MemberIndex(ms, "unknown").None?;
  }

  /** A filter keeps the two leading entries that match and drops a rest that does not. */
  lemma FilterKeepsTwo(a: string, b: string, rest: seq<string>, prefix: string)
    requires StartsWith(a, prefix) && StartsWith(b, prefix)
    requires forall x :: x in rest ==> !StartsWith(x, prefix)
    ensures FilterByPrefix([a, b] + rest, prefix) == [a, b]
  {
    FilterByPrefixConcat([a, b], rest, prefix);
    FilterByPrefixNone(rest, prefix);
    assert [a, b][1..] == [b];
    assert [b][1..] == [];
  }

  /** Only the two `complexObject` paths start with `$.complexObject`. */
  lemma ComplexObjectFilter(paths: seq<string>)
    requires paths == FirstPaths + EntryPaths
    ensures FilterByPrefix(paths, "$.complexObject") == ["$.complexObject.prop1", "$.complexObject.prop2"]
  {
    var rest := paths[2..];
    assert paths == ["$.complexObject.prop1", "$.complexObject.prop2"] + rest;
    forall x | x in rest
      ensures !StartsWith(x, "$.complexObject")
    {
      assert x[2] == 's' || x[2] == 'e';
    }
    FilterKeepsTwo("$.complexObject.prop1", "$.complexObject.prop2", rest, "$.complexObject");
  }

  /** Both spellings of the `complexObject` filter become the same prefix. */
  lemma ComplexObjectRooted()
    ensures WithRoot("complexObject") == "$.complexObject"
    ensures WithRoot("$.complexObject") == "$.complexObject"
  {
    assert "complexObject"[..2][0] != "$."[0];
    assert "$." + "complexObject" == "$.complexObject";
  }

  // ---------------------------------------------------------------- the test cases

  lemma SettingsLoadFacts(isUrl: string -> bool)
    requires isUrl(ApiUrl)
    ensures AppendAbsent([], ForInKeys(Settings)) == SettingsKeys
    ensures Target(None, None, Settings) == Some(Settings)
    ensures Walk(isUrl, [] + ["settings.json"], Settings, Children(Settings, []), []) ==
            (FirstPaths, [NestedLoad(ApiUrl, FetchLeaf)])
  {
    SettingsKeysFirst();
    SettingsPass(isUrl);
    assert [] + ["settings.json"] == ["settings.json"];
  }

  lemma SettingsWellFormed()
    ensures WellFormed(Settings) && NonEmptyContainer(Settings)
  {
    assert WellFormed(ComplexObject);
  }

  /** A first load of the settings records the four top-level names in document order. */
  lemma SettingsKeysFirst()
    ensures AppendAbsent([], ForInKeys(Settings)) == SettingsKeys
  {
    SettingsWellFormed();
    FirstLoadKeys(Settings);
    var names := ForInKeys(Settings);
    assert names[0] == "complexObject" && names[1] == "simpleNumber" && names[2] == "simpleString";
    assert names[3] == "endpointFetch";
  }

  /** `load("settings.json")`: the four names become the keys, the four plain leaves are
      recorded and the `endpointFetch` URL is handed to a nested load. */
  method LoadSettingsFirst(isUrl: string -> bool) returns (svc: ConfigurationService, nested: seq<NestedLoad>)
    requires isUrl(ApiUrl)
    ensures svc.Valid() && svc.isUrl == isUrl
    ensures nested == [NestedLoad(ApiUrl, FetchLeaf)]
    ensures svc.configValues == Some(Settings)
    ensures svc.configUrls == ["settings.json"]
    ensures svc.keys == SettingsKeys
    ensures svc.objectPaths == FirstPaths
    ensures fresh(svc)
  {
    svc := new ConfigurationService(isUrl);
    var completion;
    completion, nested := svc.Load("settings.json", None, None, HttpResponse(200, Parsed(Settings)));
    SettingsLoadFacts(isUrl);
    assert svc.configUrls == ["settings.json"];
  }

  /** The nested load for `$.endpointFetch` resolves: the API answer is written into the tree
      and its ten leaves are recorded behind the first four (test lines 214-220). */
  method LoadSettings(isUrl: string -> bool) returns (svc: ConfigurationService)
    requires isUrl(ApiUrl)
    ensures svc.Valid() && svc.isUrl == isUrl
    ensures svc.configValues == Some(Merged)
    ensures svc.GetConfigurationUrls() == ["settings.json", ApiUrl]
    ensures svc.GetKeys() == SettingsKeys
    ensures svc.GetObjectPaths(None) == FirstPaths + EntryPaths
  {
    var pending;
    svc, pending := LoadSettingsFirst(isUrl);
    var n := pending[0];
    var doc := ApiEntries;
    MergeAtFetch();
    MergedPass(isUrl, ["settings.json", ApiUrl]);
    var completion, nested := svc.ResumeLoad(n.url, Some(n.path), svc.configValues, HttpResponse(200, Parsed(doc)));
  }

  /** `getValue` in key mode after the settings are loaded (test lines 134-161). */
  method ReadByKey(isUrl: string -> bool)
    returns (simpleString: Lookup, simpleNumber: Lookup, complexObject: Lookup, unknown: Lookup)
    requires isUrl(ApiUrl)
    ensures simpleString == Value(Str("abc"))
    ensures simpleNumber == Value(Num(42))
    ensures complexObject == Value(Obj([("prop1", Num(1)), ("prop2", Str("x"))]))
    ensures unknown == Undefined
  {
    var svc := LoadSettings(isUrl);
    MergedLookups();
    simpleString := svc.GetValue("simpleString", false);
    simpleNumber := svc.GetValue("simpleNumber", false);
    complexObject := svc.GetValue("complexObject", false);
    unknown := svc.GetValue("unknown", false);
  }

  /** `getValue` in path mode after the settings are loaded gives what key mode gives
      (test lines 171-198). */
  method ReadByPath(isUrl: string -> bool)
    returns (simpleString: Lookup, simpleNumber: Lookup, complexObject: Lookup, unknown: Lookup)
    requires isUrl(ApiUrl)
    ensures simpleString == Value(Str("abc"))
    ensures simpleNumber == Value(Num(42))
    ensures complexObject == Value(Obj([("prop1", Num(1)), ("prop2", Str("x"))]))
    ensures unknown == Undefined
  {
    var svc := LoadSettings(isUrl);
    MergedLookups();
    var names := ["simpleString", "simpleNumber", "complexObject", "unknown"];
    ReadNamesDotForm(names);
    forall i | 0 <= i < |names|
      ensures svc.GetValue(names[i], true) == svc.GetValue(names[i], false)
    {
      svc.GetValueModesAgree(names[i]);
    }
    simpleString := svc.GetValue(names[0], true);
    simpleNumber := svc.GetValue(names[1], true);
    complexObject := svc.GetValue(names[2], true);
    unknown := svc.GetValue(names[3], true);
  }

  lemma ReadNamesDotForm(names: seq<string>)
    requires names == ["simpleString", "simpleNumber", "complexObject", "unknown"]
    ensures forall i :: 0 <= i < |names| ==> DotKey(names[i])
  {
    forall i | 0 <= i < |names|
      ensures DotKey(names[i])
    {
      var k := names[i];
      assert forall j :: 0 <= j < |k| ==> 'a' <= k[j] <= 'z' || 'A' <= k[j] <= 'Z';
    }
  }

  /** `getObjectPaths` with the filter written with and without `$.` (test lines 225-239). */
  method FilterPaths(isUrl: string -> bool) returns (bare: seq<string>, rooted: seq<string>)
    requires isUrl(ApiUrl)
    ensures bare == rooted == ["$.complexObject.prop1", "$.complexObject.prop2"]
  {
    var svc := LoadSettings(isUrl);
    ComplexObjectFilter(svc.objectPaths);
    ComplexObjectRooted();
    bare := svc.GetObjectPaths(Some("complexObject"));
    rooted := svc.GetObjectPaths(Some("$.complexObject"));
  }

  /** A 404 rejects with the message naming the URL and the status; nothing is recorded
      (test lines 107-115). */
  method LoadMissing(isUrl: string -> bool) returns (completion: Completion, urls: seq<string>)
    ensures completion == Rejected(LoadError("unknown.json could not be loaded: 404"))
    ensures urls == []
  {
    var svc := new ConfigurationService(isUrl);
    var nested;
    completion, nested := svc.Load("unknown.json", None, None, HttpResponse(404, Unparseable));
    MissingMessage();
    urls := svc.GetConfigurationUrls();
  }

  lemma MissingMessage()
    ensures LoadErrorMessage("unknown.json", 404) == "unknown.json could not be loaded: 404"
  {
    Status404();
    assert "unknown.json" + " could not be loaded: " + "404" == "unknown.json could not be loaded: 404";
  }

  lemma Status404()
    ensures NatToString(404) == "404"
  {
    assert NatToString(4) == "4";
    assert NatToString(40) == NatToString(4) + "0";
    assert NatToString(404) == NatToString(40) + "4";
  }

  /** A body that is not JSON rejects with the parser's error, after the URL is recorded
      (test lines 117-124). */
  method LoadText(isUrl: string -> bool) returns (completion: Completion, urls: seq<string>, keys: seq<string>)
    ensures completion == Rejected(ParseError)
    ensures urls == ["settings.txt"] && keys == []
  {
    var svc := new ConfigurationService(isUrl);
    var nested;
    completion, nested := svc.Load("settings.txt", None, None, HttpResponse(200, Unparseable));
    urls := svc.GetConfigurationUrls();
    keys := svc.GetKeys();
  }

  /** Before any load both modes of `getValue` give `undefined` (test lines 129-132, 166-169). */
  method ReadBeforeLoad(isUrl: string -> bool) returns (byKey: Lookup, byPath: Lookup)
    ensures byKey == Undefined && byPath == Undefined
  {
    var svc := new ConfigurationService(isUrl);
    byKey := svc.GetValue("xxx", false);
    byPath := svc.GetValue("xxx", true);
  }

  /** Loading the settings URL again resolves at once and changes nothing. */
  method LoadTwice(isUrl: string -> bool) returns (completion: Completion, nested: seq<NestedLoad>, paths: seq<string>)
    requires isUrl(ApiUrl)
    ensures completion == Resolved && nested == []
    ensures paths == FirstPaths
  {
    var svc, pending := LoadSettingsFirst(isUrl);
    completion, nested := svc.Load("settings.json", None, None, HttpResponse(200, Parsed(Settings)));
    paths := svc.GetObjectPaths(None);
  }
}
