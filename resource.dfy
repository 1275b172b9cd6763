/**
 * middleware/resource.py: `create_resource` up to the call of
 * `get_aggregated_resources`: the initial resource attributes and the list of
 * resource detectors handed to it.
 */
module Resource {
  import opened Wrappers
  import opened Strings
  import opened Detectors
  import opened Options

  // ------------------------------------------------ custom attribute string

  /** One `k=v` item: its stripped key and value, or None when `item.split("=")` does not
      unpack into exactly two parts. */
  function ParseItem(item: string): Option<(string, string)> {
    var parts := Split(item, '=');
    if |parts| == 2 then Some((Strip(parts[0]), Strip(parts[1]))) else None
  }

  /** An item unpacks exactly when it holds one "=". */
  lemma ParseItemUnpacks(item: string)
    ensures ParseItem(item).Some? <==> multiset(item)['='] == 1
  {
    SplitCount(item, '=');
  }

  /** `f` of every element, in order, or None as soon as `f` gives None for one of them. */
  function AllOf<T, U>(f: T -> Option<U>, xs: seq<T>): Option<seq<U>>
    decreases |xs|
  {
    if xs == [] then Some([])
    else
      match f(xs[0])
      case None => None
      case Some(y) =>
        match AllOf(f, xs[1..])
        case None => None
        case Some(rest) => Some([y] + rest)
  }

  /** All of them succeed exactly when each does, and then the results are in order. */
  lemma {:induction false} AllOfSpec<T, U>(f: T -> Option<U>, xs: seq<T>)
    ensures AllOf(f, xs).Some? <==> forall i :: 0 <= i < |xs| ==> f(xs[i]).Some?
    ensures AllOf(f, xs).Some? ==> |AllOf(f, xs).value| == |xs|
    ensures AllOf(f, xs).Some? ==> forall i :: 0 <= i < |xs| ==> f(xs[i]) == Some(AllOf(f, xs).value[i])
    decreases |xs|
  {
    if xs != [] {
      var tail := xs[1..];
      AllOfSpec(f, tail);
      var head := f(xs[0]);
      if head.Some? && AllOf(f, tail).Some? {
        var r := [head.value] + AllOf(f, tail).value;
        assert AllOf(f, xs) == Some(r);
        forall i | 0 < i < |xs| ensures f(xs[i]).Some? && f(xs[i]) == Some(r[i]) {
          assert xs[i] == tail[i - 1];
        }
      } else if head.Some? {
        var j :| 0 <= j < |tail| && f(tail[j]).None?;
        assert xs[j + 1] == tail[j];
      }
    }
  }

  /** Every item parsed, in order, or None when one of them does not unpack. */
  function ParseItems(items: seq<string>): Option<seq<(string, string)>> {
    AllOf(ParseItem, items)
  }

  /** The items parse together exactly when each parses, and then in order. */
  lemma ParseItemsAll(items: seq<string>)
    ensures ParseItems(items).Some? <==> forall i :: 0 <= i < |items| ==> ParseItem(items[i]).Some?
    ensures ParseItems(items).Some? ==> |ParseItems(items).value| == |items|
    ensures ParseItems(items).Some? ==>
      forall i :: 0 <= i < |items| ==> ParseItem(items[i]) == Some(ParseItems(items).value[i])
  {
    AllOfSpec(ParseItem, items);
  }

  /** The dict built from key-value pairs in order: a later pair overwrites an earlier one. */
  function PairsMap<K, V>(pairs: seq<(K, V)>): map<K, V>
    decreases |pairs|
  {
    if pairs == [] then map[]
    else
      var last := pairs[|pairs| - 1];
      PairsMap(pairs[..|pairs| - 1])[last.0 := last.1]
  }

  /** A key is present exactly when some pair has it, and it holds the value of the last such pair. */
  lemma {:induction false} LastPairWins<K, V>(pairs: seq<(K, V)>, k: K)
    ensures k in PairsMap(pairs) <==> exists i :: 0 <= i < |pairs| && pairs[i].0 == k
    ensures forall i :: (0 <= i < |pairs| && pairs[i].0 == k &&
      (forall j :: i < j < |pairs| ==> pairs[j].0 != k)) ==> PairsMap(pairs)[k] == pairs[i].1
    decreases |pairs|
  {
    if pairs != [] {
      var init := pairs[..|pairs| - 1];
      var last := pairs[|pairs| - 1];
      assert forall i :: 0 <= i < |init| ==> init[i] == pairs[i];
      LastPairWins(init, k);
      if k in PairsMap(pairs) && last.0 != k {
        var i :| 0 <= i < |init| && init[i].0 == k;
        assert pairs[i].0 == k;
      }
    }
  }

  /** The dict of all items or, when one item does not unpack, nothing at all. */
  function ItemsAttributes(items: seq<string>): Option<map<string, string>> {
    match ParseItems(items)
    case Some(pairs) => Some(PairsMap(pairs))
    case None => None
  }

  /** The `MW_CUSTOM_RESOURCE_ATTRIBUTES` parse over the comma-separated items: a dict exactly
      when every item holds exactly one "=". */
  function ParseCustomAttributes(s: string): (r: Option<map<string, string>>)
    ensures r.Some? <==> EachHoldsOnce(Split(s, ','), '=')
  {
    ItemsAttributesAllOrNothing(Split(s, ','));
    ItemsSeparators(Split(s, ','));
    ItemsAttributes(Split(s, ','))
  }

  /** Every item unpacks exactly when every item holds one "=". */
  lemma ItemsSeparators(items: seq<string>)
    ensures (forall i :: 0 <= i < |items| ==> ParseItem(items[i]).Some?) <==> EachHoldsOnce(items, '=')
  {
    forall i | 0 <= i < |items| ensures ParseItem(items[i]).Some? <==> multiset(items[i])['='] == 1 {
      ParseItemUnpacks(items[i]);
    }
  }

  /** All or nothing: the items give a dict exactly when every one of them unpacks. */
  lemma ItemsAttributesAllOrNothing(items: seq<string>)
    ensures ItemsAttributes(items).Some? <==> forall i :: 0 <= i < |items| ==> ParseItem(items[i]).Some?
  {
    ParseItemsAll(items);
  }

  /** Each key holds the value of the last item that has that key. */
  lemma ItemsAttributesValues(items: seq<string>, i: nat)
    requires ItemsAttributes(items).Some? && i < |items|
    requires ParseItem(items[i]).Some?
    requires forall j :: i < j < |items| ==> ParseItem(items[j]).Some? && ParseItem(items[j]).value.0 != ParseItem(items[i]).value.0
    ensures ParseItem(items[i]).value.0 in ItemsAttributes(items).value
    ensures ItemsAttributes(items).value[ParseItem(items[i]).value.0] == ParseItem(items[i]).value.1
  {
    ParseItemsAll(items);
    var pairs := ParseItems(items).value;
    assert ItemsAttributes(items).value == PairsMap(pairs);
    var k := pairs[i].0;
    assert ParseItem(items[i]).value == pairs[i];
    forall j | i < j < |pairs| ensures pairs[j].0 != k {
      assert ParseItem(items[j]).value == pairs[j];
    }
    LastPairWins(pairs, k);
  }

  /** The keys are exactly the stripped keys of the items. */
  lemma ItemsAttributesKeys(items: seq<string>, k: string)
    requires ItemsAttributes(items).Some?
    ensures k in ItemsAttributes(items).value <==>
      exists i :: 0 <= i < |items| && ParseItem(items[i]).Some? && ParseItem(items[i]).value.0 == k
  {
    ParseItemsAll(items);
    var pairs := ParseItems(items).value;
    LastPairWins(pairs, k);
    if exists i :: 0 <= i < |pairs| && pairs[i].0 == k {
      var i :| 0 <= i < |pairs| && pairs[i].0 == k;
      assert ParseItem(items[i]).value.0 == k;
    }
    if exists i :: 0 <= i < |items| && ParseItem(items[i]).Some? && ParseItem(items[i]).value.0 == k {
      var i :| 0 <= i < |items| && ParseItem(items[i]).Some? && ParseItem(items[i]).value.0 == k;
      assert pairs[i].0 == k;
    }
  }

  /** An item lacking "=" makes the whole string contribute nothing. */
  lemma MissingSeparatorExample()
    ensures ParseCustomAttributes("a=1,b") == None
  {
    assert Join(["a=1", "b"], ',') == "a=1,b";
    SplitJoin(["a=1", "b"], ',');
    ParseItemUnpacks("b");
    assert multiset("b")['='] == 0;
    ItemsAttributesAllOrNothing(["a=1", "b"]);
  }

  /** So does an item holding two of them. */
  lemma ExtraSeparatorExample()
    ensures ParseCustomAttributes("a=1=2") == None
  {
    SplitNoSeparator("a=1=2", ',');
    ParseItemUnpacks("a=1=2");
    assert multiset("a=1=2")['='] == 2;
    ItemsAttributesAllOrNothing(["a=1=2"]);
  }

  // ------------------------------------------------------ initial attributes

  /** The parsed custom attributes, when the option is set and parses. */
  function CustomExtra(custom: Option<string>): Option<map<string, string>> {
    if custom.Some? then ParseCustomAttributes(custom.value) else None
  }

  /** The attributes of the initial resource; `serverless` says whether the target contains
      "https", and `extra` is the parsed custom dict, if any. */
  function ResourceAttributes(serviceName: string, sdkVersion: string, serverless: bool,
                              accessToken: Option<string>, projectName: Option<string>,
                              extra: Option<map<string, string>>): (r: map<string, string>)
    ensures "service.name" in r && "mw.sdk.version" in r && "mw.app.lang" in r && "runtime.metrics.python" in r
    ensures extra.Some? ==> forall k :: k in extra.value ==> k in r && r[k] == extra.value[k]
  {
    var base := map["service.name" := serviceName, "mw.sdk.version" := sdkVersion,
                    "mw.app.lang" := "python", "runtime.metrics.python" := "true"];
    var a1 := if serverless then base["mw.serverless" := "true"] else base;
    var a2 := if accessToken.Some? then a1["mw.account_key" := accessToken.value] else a1;
    var a3 := if projectName.Some? then a2["project.name" := projectName.value] else a2;
    if extra.Some? then a3 + extra.value else a3
  }

  /** Custom attributes override the base keys and leave the other keys as they were; the four
      fixed keys are always present, and the conditional ones whenever their condition holds. */
  lemma CustomOverrides(serviceName: string, sdkVersion: string, serverless: bool,
                        accessToken: Option<string>, projectName: Option<string>, extra: map<string, string>)
    ensures var r := ResourceAttributes(serviceName, sdkVersion, serverless, accessToken, projectName, Some(extra));
      var plain := ResourceAttributes(serviceName, sdkVersion, serverless, accessToken, projectName, None);
      && r.Keys == plain.Keys + extra.Keys
      && (forall k :: k in extra ==> r[k] == extra[k])
      && (forall k :: k in plain && k !in extra ==> r[k] == plain[k])
      && "service.name" in r && "mw.sdk.version" in r && "mw.app.lang" in r && "runtime.metrics.python" in r
      && (serverless ==> "mw.serverless" in r)
      && (accessToken.Some? ==> "mw.account_key" in r)
      && (projectName.Some? ==> "project.name" in r)
  {
  }

  /** Without custom attributes the conditional keys are present exactly when their condition holds,
      and every key has the value its source gives it. */
  lemma BaseAttributes(serviceName: string, sdkVersion: string, serverless: bool,
                       accessToken: Option<string>, projectName: Option<string>)
    ensures var r := ResourceAttributes(serviceName, sdkVersion, serverless, accessToken, projectName, None);
      && r["service.name"] == serviceName && r["mw.sdk.version"] == sdkVersion
      && r["mw.app.lang"] == "python" && r["runtime.metrics.python"] == "true"
      && (("mw.serverless" in r) <==> serverless)
      && ("mw.serverless" in r ==> r["mw.serverless"] == "true")
      && (("mw.account_key" in r) <==> accessToken.Some?)
      && (accessToken.Some? ==> r["mw.account_key"] == accessToken.value)
      && (("project.name" in r) <==> projectName.Some?)
      && (projectName.Some? ==> r["project.name"] == projectName.value)
      && r.Keys <= {"service.name", "mw.sdk.version", "mw.app.lang", "runtime.metrics.python",
                    "mw.serverless", "mw.account_key", "project.name"}
  {
  }

  // ---------------------------------------------------------------- resource

  /** The four detectors always installed, in order. */
  const DefaultDetectors: seq<DetectorKind> :=
    [OtelResourceDetector, ProcessResourceDetector, OsResourceDetector, DockerResourceDetector]

  /** What `get_aggregated_resources` is given: the initial attributes and the detectors. */
  datatype ResourceSpec = ResourceSpec(attributes: map<string, string>, detectors: seq<DetectorKind>)

  /** The attribute dict of `create_resource`, built by conditional assignments and `update`. */
  method BuildAttributes(options: MWOptions, sdkVersion: string) returns (attributes: map<string, string>)
    ensures attributes == ResourceAttributes(options.serviceName, sdkVersion, Contains(options.target, "https"),
      options.accessToken, options.projectName, CustomExtra(options.customResourceAttributes))
  {
    attributes := map["service.name" := options.serviceName, "mw.sdk.version" := sdkVersion,
                      "mw.app.lang" := "python", "runtime.metrics.python" := "true"];
    if Contains(options.target, "https") {
      attributes := attributes["mw.serverless" := "true"];
    }
    if options.accessToken.Some? {
      attributes := attributes["mw.account_key" := options.accessToken.value];
    }
    if options.projectName.Some? {
      attributes := attributes["project.name" := options.projectName.value];
    }
    if options.customResourceAttributes.Some? {
      var extra := ParseCustomAttributes(options.customResourceAttributes.value);
      if extra.Some? {
        attributes := attributes + extra.value;
      }
    }
  }

  /** The detector list of `create_resource`: the defaults, extended by the detectors the
      selection names, or the error `process_detector_input` raises. */
  method BuildDetectors(selection: Option<DetectorInput>) returns (r: Result<seq<DetectorKind>, InputError>)
    ensures r.Err? <==> selection.Some? && Resolve(selection.value).Err?
    ensures r.Err? ==> r.error == Resolve(selection.value).error
    ensures r.Ok? ==> |r.value| >= 4 && r.value[..4] == DefaultDetectors
    ensures r.Ok? && selection.None? ==> r.value == DefaultDetectors
    ensures r.Ok? && selection.Some? ==>
      var extra := r.value[4..];
      |extra| == |Resolve(selection.value).value| &&
      forall k :: k in extra <==> exists d :: d in Resolve(selection.value).value && k == KindOf(d)
  {
    var detectors := DefaultDetectors;
    if selection.Some? {
      var selected := ProcessDetectorInput(selection.value);
      if selected.Err? {
        return Err(selected.error);
      }
      var chosen := Resolve(selection.value).value;
      var extraDetectors := GetDetectors(Some(selected.value));
      if |extraDetectors| > 0 {
        detectors := detectors + extraDetectors;
      }
      assert detectors[4..] == extraDetectors;
      DistinctLength(selected.value, chosen);
      var kinds := KindsOf(selected.value);
      assert |extraDetectors| == |multiset(extraDetectors)| == |multiset(kinds)| == |kinds|;
      forall k ensures k in extraDetectors <==> exists d :: d in chosen && k == KindOf(d) {
        assert k in extraDetectors <==> k in multiset(extraDetectors);
        assert k in kinds <==> k in multiset(kinds);
        if k in kinds {
          var i :| 0 <= i < |kinds| && kinds[i] == k;
          assert selected.value[i] in Elements(selected.value);
        }
        if exists d :: d in chosen && k == KindOf(d) {
          var d :| d in chosen && k == KindOf(d);
          assert d in Elements(selected.value);
          var i :| 0 <= i < |selected.value| && selected.value[i] == d;
          assert kinds[i] == k;
        }
      }
    }
    r := Ok(detectors);
  }

  /** `create_resource`: what `get_aggregated_resources` is given, or the error raised.
      `sdkVersion` stands for `__version__`. */
  method CreateResource(options: MWOptions, sdkVersion: string) returns (r: Result<ResourceSpec, InputError>)
    ensures r.Err? <==> options.detectors.Some? && Resolve(options.detectors.value).Err?
    ensures r.Err? ==> r.error == Resolve(options.detectors.value).error
    ensures r.Ok? ==> r.value.attributes == ResourceAttributes(options.serviceName, sdkVersion,
      Contains(options.target, "https"), options.accessToken, options.projectName,
      CustomExtra(options.customResourceAttributes))
    ensures r.Ok? ==> |r.value.detectors| >= 4 && r.value.detectors[..4] == DefaultDetectors
    ensures r.Ok? && options.detectors.None? ==> r.value.detectors == DefaultDetectors
    ensures r.Ok? && options.detectors.Some? ==>
      var extra := r.value.detectors[4..];
      |extra| == |Resolve(options.detectors.value).value| &&
      forall k :: k in extra <==> exists d :: d in Resolve(options.detectors.value).value && k == KindOf(d)
  {
    var attributes := BuildAttributes(options, sdkVersion);
    var detectors := BuildDetectors(options.detectors);
    match detectors
    case Err(e) => r := Err(e);
    case Ok(ds) => r := Ok(ResourceSpec(attributes, ds));
  }

  /** A duplicate-free list has as many entries as elements. */
  lemma {:induction false} DistinctLength<T>(s: seq<T>, e: set<T>)
    requires Distinct(s) && Elements(s) == e
    ensures |s| == |e|
    decreases |s|
  {
    if s != [] {
      var init := s[..|s| - 1];
      var last := s[|s| - 1];
      assert Distinct(init);
      assert last !in Elements(init) by {
        forall i | 0 <= i < |init| ensures init[i] != last {
          assert s[i] == init[i];
        }
      }
      assert Elements(s) == Elements(init) + {last} by {
        assert s == init + [last];
      }
      DistinctLength(init, Elements(init));
    }
  }
}
