/** `ConfigurationService`: the store of the merged configuration tree and its indexes. */
module Configuration {
  import opened JsonValues
  import opened SeqUtil
  import opened JsonPath
  import opened Aggregation

  /** What `response.json()` makes of the body of a response. */
  datatype Body = Parsed(doc: Json) | Unparseable

  /** The HTTP collaborator's answer to `http.get(url)`. */
  datatype HttpResponse = HttpResponse(status: nat, body: Body)

  /** Angular's `Response.ok`: a status in the 2xx range. */
  predicate IsOk(r: HttpResponse) {
    200 <= r.status <= 299
  }

  /** Why a call to `load` rejects: the HTTP status, the body parser, or jsonpath's
      `obj needs to be an object` assertion on a root that is not an object or array. */
  datatype Failure = LoadError(message: string) | ParseError | NotAnObject

  /** How the promise returned by `load` settles. */
  datatype Completion = Resolved | Rejected(reason: Failure)

  /** What `getValue` returns: `undefined`, a value, or the error jsonpath raises on a
      path expression it cannot read. */
  datatype Lookup = Undefined | Value(value: Json) | PathSyntaxError

  function LoadErrorMessage(url: string, status: nat): string {
    url + " could not be loaded: " + NatToString(status)
  }

  /** The names a `for...in` loop enumerates over a parsed value: an object's member names,
      the indices of an array or of a string, and nothing for other scalars. */
  function ForInKeys(j: Json): seq<string> {
    match j
    case Obj(ms) => seq(|ms|, i requires 0 <= i < |ms| => ms[i].0)
    case Arr(xs) => seq(|xs|, i requires 0 <= i < |xs| => NatToString(i))
    case Str(s) => seq(|s|, i requires 0 <= i < |s| => NatToString(i))
    case _ => []
  }

  /** Line 98: an `originalObject` that is `undefined` or `null` makes a top-level load. */
  predicate TopLevel(originalObject: Option<Json>) {
    originalObject.None? || originalObject == Some(Null)
  }

  /** Lines 98-110: the tree walked after a successful response, or nothing when jsonpath
      rejects the root it is given. A top-level load walks the document itself; a nested load
      first writes the document into `originalObject` at `currentPath`. */
  function Target(currentPath: Option<Path>, originalObject: Option<Json>, doc: Json): Option<Json> {
    if TopLevel(originalObject) then
      if IsContainer(doc) then Some(doc) else None
    else
      var o := originalObject.value;
      if !IsContainer(o) then None
      else
        match currentPath
        case None => Some(o)
        case Some(p) =>
          var t := Set(o, p, doc);
          if IsContainer(t) then Some(t) else None
  }

  /** The `startsWith("$.") ? s : "$." + s` normalisation of lines 55 and 77. */
  function WithRoot(s: string): (r: string)
    ensures StartsWith(r, "$.")
    ensures StartsWith(s, "$.") ==> r == s
    ensures !StartsWith(s, "$.") ==> r == "$." + s
  {
    if StartsWith(s, "$.") then s else "$." + s
  }

  /** Lines 79-81: a stored `null` is returned as `undefined`. */
  function Present(v: Option<Json>): (r: Lookup)
    ensures r.Value? ==> v == Some(r.value) && r.value != Null
    ensures r.Undefined? <==> v.None? || v == Some(Null)
    ensures r != PathSyntaxError
    ensures v.Some? && v.value != Null ==> r == Value(v.value)
  {
    match v
    case None => Undefined
    case Some(x) => if x.Null? then Undefined else Value(x)
  }

  /** A nested load for a node of an object or array stores the response at its path, so the
      value below the path is the response's, and leaves every path beside it as it was; a path
      that no longer resolves leaves the tree unchanged. */
  lemma NestedLoadSplices(o: Json, p: Path, doc: Json, q: Path)
    requires IsContainer(o) && p != []
    ensures Target(Some(p), Some(o), doc).Some?
    ensures var t := Target(Some(p), Some(o), doc).value;
            && (Get(o, p).Some? ==> Get(t, p + q) == Get(doc, q))
            && (Get(o, p).Some? && Disjoint(p, q) ==> Get(t, q) == Get(o, q))
            && (Get(o, p).None? ==> t == o)
  {
    var t := Set(o, p, doc);
    assert t.Obj? == o.Obj? && t.Arr? == o.Arr?;
    if Get(o, p).Some? {
      SetThenGet(o, p, doc, q);
      if Disjoint(p, q) {
        SetKeepsDisjoint(o, p, doc, q);
      }
    } else {
      SetMissing(o, p, doc);
    }
  }

  /** The first top-level load of an object records its member names, in order. */
  lemma FirstLoadKeys(doc: Json)
    requires doc.Obj? && WellFormed(doc)
    ensures AppendAbsent([], ForInKeys(doc)) == ForInKeys(doc)
    ensures |ForInKeys(doc)| == |doc.members|
    ensures forall i :: 0 <= i < |doc.members| ==> ForInKeys(doc)[i] == doc.members[i].0
  {
    DistinctNamesFresh(doc.members);
  }

  lemma DistinctNamesFresh(ms: seq<(string, Json)>)
    requires forall a, b :: 0 <= a < b < |ms| ==> ms[a].0 != ms[b].0
    ensures var names := seq(|ms|, i requires 0 <= i < |ms| => ms[i].0);
            AppendAbsent([], names) == names
  {
    var names := seq(|ms|, i requires 0 <= i < |ms| => ms[i].0);
    assert NoDup([] + names) by {
      assert [] + names == names;
      forall a, b | 0 <= a < b < |names| ensures names[a] != names[b] {
        assert names[a] == ms[a].0 && names[b] == ms[b].0;
      }
    }
    AppendAbsentFresh([], names);
  }

  class ConfigurationService {
    /** The `is-url` classifier, taken as given. */
    const isUrl: string -> bool

    var configValues: Option<Json>
    var configUrls: seq<string>
    var objectPaths: seq<string>
    var keys: seq<string>

    ghost predicate Valid()
      reads this
    {
      && NoDup(objectPaths)
      && NoDup(keys)
      && (configValues.Some? ==> IsContainer(configValues.value))
    }

    constructor (isUrl: string -> bool)
      ensures Valid() && this.isUrl == isUrl
      ensures configValues == None && configUrls == [] && objectPaths == [] && keys == []
    {
      this.isUrl := isUrl;
      configValues := None;
      configUrls := [];
      objectPaths := [];
      keys := [];
    }

    function GetConfigurationUrls(): seq<string>
      reads this
    {
      configUrls
    }

    /** The top-level names collected so far, each once. */
    function GetKeys(): (r: seq<string>)
      reads this
      requires Valid()
      ensures NoDup(r)
    {
      keys
    }

    /** Lines 49-59: all object paths, or those that start with the filter after `$.` is
        put in front of it, in their original order. */
    function GetObjectPaths(filter: Option<string>): (r: seq<string>)
      reads this
      requires Valid()
      ensures filter.None? ==> r == objectPaths
      ensures filter.Some? ==> Subsequence(r, objectPaths)
      ensures filter.Some? ==> forall x :: x in r <==> x in objectPaths && StartsWith(x, WithRoot(filter.value))
      ensures NoDup(r)
    {
      match filter
      case None => objectPaths
      case Some(f) => FilterByPrefix(objectPaths, WithRoot(f))
    }

    /** A filter with or without its `$.` prefix selects the same paths. */
    lemma FilterForms(f: string)
      requires Valid() && !StartsWith(f, "$.")
      ensures GetObjectPaths(Some(f)) == GetObjectPaths(Some("$." + f))
    {
      assert ("$." + f)[..2] == "$.";
    }

    /** Lines 69-83: a top-level member in key mode, a resolved path in path mode. */
    function GetValue(key: string, objectPath: bool): (r: Lookup)
      reads this
      ensures configValues.None? ==> r == Undefined
      ensures r.Value? ==> r.value != Null
      ensures !objectPath ==> r != PathSyntaxError
    {
      match configValues
      case None => Undefined
      case Some(t) =>
        if !objectPath then Present(Step(t, Key(key)))
        else
          match Parse(WithRoot(key))
          case None => PathSyntaxError
          case Some(p) => Present(Get(t, p))
    }

    /** Key mode and path mode agree on a top-level name in dot form. */
    lemma GetValueModesAgree(key: string)
      requires DotKey(key)
      ensures GetValue(key, true) == GetValue(key, false)
    {
      if configValues.Some? {
        assert !StartsWith(key, "$.") by {
          if |key| >= 2 {
            assert KeyChar(key[1]);
          }
        }
        assert [Key(key)][1..] == [];
        assert SegsString([Key(key)]) == "." + key;
        assert WithRoot(key) == Stringify([Key(key)]);
        ParseStringify([Key(key)]);
        assert Get(configValues.value, [Key(key)]) == Step(configValues.value, Key(key));
      }
    }

    /** Path mode resolves a stringified path that starts with a member, such as every path
        the walker records for an object root. */
    lemma GetValueAtPath(p: Path)
      requires DotPath(p) && p != [] && p[0].Key?
      ensures GetValue(Stringify(p), true) ==
              if configValues.None? then Undefined else Present(Get(configValues.value, p))
    {
      if configValues.Some? {
        assert SegsString(p) == "." + p[0].name + SegsString(p[1..]);
        assert StartsWith(Stringify(p), "$.");
        ParseStringify(p);
      }
    }

    /** Lines 94-114, the part of `load` that runs once the response has arrived. */
    twostate predicate Resumed(url: string, currentPath: Option<Path>, originalObject: Option<Json>,
                               response: HttpResponse, completion: Completion, nested: seq<NestedLoad>)
      reads this
    {
      if !IsOk(response) then
        && completion == Rejected(LoadError(LoadErrorMessage(url, response.status)))
        && nested == []
        && configUrls == old(configUrls) && keys == old(keys)
        && configValues == old(configValues) && objectPaths == old(objectPaths)
      else
        && configUrls == old(configUrls) + [url]
        && match response.body
           case Unparseable =>
             && completion == Rejected(ParseError) && nested == []
             && keys == old(keys) && configValues == old(configValues) && objectPaths == old(objectPaths)
           case Parsed(doc) =>
             && keys == (if TopLevel(originalObject) then AppendAbsent(old(keys), ForInKeys(doc)) else old(keys))
             && match Target(currentPath, originalObject, doc)
                case None =>
                  completion == Rejected(NotAnObject) && nested == []
                  && configValues == old(configValues) && objectPaths == old(objectPaths)
                case Some(t) =>
                  completion == Resolved && configValues == Some(t)
                  && (objectPaths, nested) == Walk(isUrl, configUrls, t, Children(t, []), old(objectPaths))
    }

    /** How `getConfigurationUrls` grows across one resumed load: an OK response appends its URL
        before the body is parsed, so even a body that fails to parse leaves it recorded; a
        non-OK response leaves the list as it was. */
    twostate lemma UrlsAfterResume(url: string, currentPath: Option<Path>, originalObject: Option<Json>,
                                   response: HttpResponse, completion: Completion, nested: seq<NestedLoad>)
      requires Resumed(url, currentPath, originalObject, response, completion, nested)
      ensures GetConfigurationUrls() == old(GetConfigurationUrls()) + (if IsOk(response) then [url] else [])
      ensures IsOk(response) ==> url in GetConfigurationUrls()
      ensures completion == Rejected(ParseError) ==> GetConfigurationUrls() == old(GetConfigurationUrls()) + [url]
    {
    }

    /** `load(url, currentPath, originalObject)`: returns at once for a URL already loaded,
        otherwise handles the response; `nested` lists the loads the aggregation pass starts. */
    method Load(url: string, currentPath: Option<Path>, originalObject: Option<Json>, response: HttpResponse)
      returns (completion: Completion, nested: seq<NestedLoad>)
      requires Valid()
      modifies this
      ensures Valid()
      ensures url in old(configUrls) ==> completion == Resolved && nested == [] && unchanged(this)
      ensures url !in old(configUrls) ==> Resumed(url, currentPath, originalObject, response, completion, nested)
    {
      if url in configUrls {
        return Resolved, [];
      }
      completion, nested := ResumeLoad(url, currentPath, originalObject, response);
    }

    /** The continuation of `load` after the `await` on line 94. The walker's nested loads have
        passed the repeat check already, so the event loop resumes them here. */
    method ResumeLoad(url: string, currentPath: Option<Path>, originalObject: Option<Json>, response: HttpResponse)
      returns (completion: Completion, nested: seq<NestedLoad>)
      requires Valid()
      modifies this
      ensures Valid()
      ensures Resumed(url, currentPath, originalObject, response, completion, nested)
    {
      if !IsOk(response) {
        return Rejected(LoadError(LoadErrorMessage(url, response.status))), [];
      }
      configUrls := configUrls + [url];
      if response.body.Unparseable? {
        return Rejected(ParseError), [];
      }
      var doc := response.body.doc;
      if TopLevel(originalObject) {
        CollectKeys(ForInKeys(doc));
      }
      var target := Target(currentPath, originalObject, doc);
      if target.None? {
        return Rejected(NotAnObject), [];
      }
      var tree := target.value;
      PassOnlyAppendsLeaves(isUrl, configUrls, tree, Children(tree, []), objectPaths);
      nested := LoadAggregatedValues(tree, Children(tree, []));
      configValues := Some(tree);
      completion := Resolved;
    }

    /** Lines 100-105: each key of the fresh document that is not known yet is appended. */
    method CollectKeys(names: seq<string>)
      modifies this`keys
      ensures keys == AppendAbsent(old(keys), names)
    {
      var i := 0;
      assert names[0..] == names;
      while i < |names|
        invariant 0 <= i <= |names|
        invariant AppendAbsent(keys, names[i..]) == AppendAbsent(old(keys), names)
      {
        assert names[i..][1..] == names[i + 1..];
        if names[i] !in keys {
          keys := keys + [names[i]];
        }
        i := i + 1;
      }
    }

    /** Lines 117-139: one depth-first pass over `anykeys`, appending to objectPaths and
        starting a nested load for each dereferenced leaf whose URL is not loaded yet. */
    method LoadAggregatedValues(currentData: Json, anykeys: seq<Path>) returns (nested: seq<NestedLoad>)
      modifies this`objectPaths
      ensures (objectPaths, nested) == Walk(isUrl, configUrls, currentData, anykeys, old(objectPaths))
      decreases Rank(currentData, anykeys)
    {
      nested := [];
      var i := 0;
      ghost var loaded := configUrls;
      ghost var total := Walk(isUrl, loaded, currentData, anykeys, objectPaths);
      assert anykeys[0..] == anykeys;
      while i < |anykeys|
        invariant 0 <= i <= |anykeys|
        invariant configUrls == loaded
        invariant total.0 == Walk(isUrl, loaded, currentData, anykeys[i..], objectPaths).0
        invariant total.1 == nested + Walk(isUrl, loaded, currentData, anykeys[i..], objectPaths).1
      {
        var anykey := anykeys[i];
        ghost var before := objectPaths;
        var currentPath := Stringify(anykey);
        var currentAnyKeys := Children(currentData, anykey);
        var more: seq<NestedLoad>;
        if |currentAnyKeys| >= 1 {
          RankOfChildren(currentData, anykey);
          RankAtLeast(currentData, anykeys, i);
          more := LoadAggregatedValues(currentData, currentAnyKeys);
        } else {
          more := Visit1(currentData, anykey, currentPath);
        }
        WalkAdvance(isUrl, loaded, currentData, anykeys, i, before, objectPaths, nested, more, total);
        nested := nested + more;
        i := i + 1;
      }
      assert anykeys[i..] == [];
      assert nested + [] == nested;
    }

    /** Lines 127-134: one terminal node either starts a nested load, when its URL is not
        loaded yet, or has its path recorded, when that path is new. */
    method Visit1(currentData: Json, anykey: Path, currentPath: string) returns (nested: seq<NestedLoad>)
      requires currentPath == Stringify(anykey)
      modifies this`objectPaths
      ensures (objectPaths, nested) == Visit(isUrl, configUrls, currentData, anykey, old(objectPaths))
    {
      nested := [];
      var currentValue := Get(currentData, anykey);
      if Dereferences(isUrl, currentValue, anykey) {
        // `this.load(currentValue, ...)` runs its repeat check now and its fetch later.
        if currentValue.value.s !in configUrls {
          nested := [NestedLoad(currentValue.value.s, anykey)];
        }
      } else if currentPath !in objectPaths {
        objectPaths := objectPaths + [currentPath];
      }
    }
  }
}
