/** Key derivation for the state store: the legacy blob-storage URI and the
    flat key under which the namespace key-value store holds a state.

    The two encodings do NOT share one segment list. The flat key glues the
    sub-name onto the state name ("name_sub") before the hashed task-run value,
    while the legacy URI puts the sub-name last, as a segment of its own, after
    the hash. */
module StateKeys {
  import opened Wrappers

  /** The static collaborators of key derivation, `Slugify.of` and
      `Hashing.hashToString`. Any functions will do: nothing below assumes
      that either is injective. */
  datatype Naming = Naming(slugify: string -> string, hashToString: string -> string)

  /** The identity of the flow owning the state (the run context's flow info). */
  datatype FlowInfo = FlowInfo(namespace: string, id: string)

  /** "_" + name for a present sub-name, nothing for an absent one. */
  function NameSuffix(name: Option<string>): (r: string)
    ensures name.None? <==> r == ""
    ensures name.Some? ==> r[0] == '_' && r[1..] == name.value
  {
    match name
    case None => ""
    case Some(n) => "_" + n
  }

  /** The slugged flow id, "states", the state name and, for a present
      task-run value, its hash, joined by `separator`. */
  function StatePrefix(naming: Naming, separator: string, flowId: string, stateName: string,
                       taskRunValue: Option<string>): (r: string)
    ensures r == Join(separator, [naming.slugify(flowId), "states", stateName]
                                 + Optional(taskRunValue, naming.hashToString))
  {
    JoinThree(separator, naming.slugify(flowId), "states", stateName);
    JoinAppendOptional(separator, [naming.slugify(flowId), "states", stateName],
                       taskRunValue, naming.hashToString);
    naming.slugify(flowId) + separator + "states" + separator + stateName
      + (match taskRunValue
         case None => ""
         case Some(v) => separator + naming.hashToString(v))
  }

  /** `namespace.replace(".", "/")`: every dot becomes a slash, nothing else moves. */
  function ReplaceDots(s: string): (r: string)
    ensures |r| == |s|
    ensures forall i :: 0 <= i < |s| ==> r[i] == (if s[i] == '.' then '/' else s[i])
  {
    if |s| == 0 then ""
    else [if s[0] == '.' then '/' else s[0]] + ReplaceDots(s[1..])
  }

  /** The key of a state in the namespace key-value store: the flat
      segments joined by "_", with the sub-name inside the third segment. */
  function FlatKey(naming: Naming, flowId: string, stateName: string,
                   subName: Option<string>, taskRunValue: Option<string>): (key: string)
    ensures key == Join("_", FlatSegments(naming, flowId, stateName, subName, taskRunValue))
  {
    StatePrefix(naming, "_", flowId, stateName + NameSuffix(subName), taskRunValue)
  }

  /** The URI of a state in the legacy blob storage: the namespace path
      under "kestra:/", then the legacy segments joined by "/", with the
      sub-name as the last segment. */
  function LegacyUri(naming: Naming, flow: FlowInfo, stateName: string,
                     subName: Option<string>, taskRunValue: Option<string>): (uri: string)
    ensures uri == "kestra:/" + ReplaceDots(flow.namespace) + "/"
                   + Join("/", LegacySegments(naming, flow.id, stateName, subName, taskRunValue))
  {
    var withHash := [naming.slugify(flow.id), "states", stateName]
                    + Optional(taskRunValue, naming.hashToString);
    JoinAppendOptional("/", withHash, subName, s => s);
    "kestra:/" + ReplaceDots(flow.namespace) + "/"
      + StatePrefix(naming, "/", flow.id, stateName, taskRunValue)
      + (match subName
         case None => ""
         case Some(n) => "/" + n)
  }

  // ---------------------------------------------------------------------------
  // Reference definition: segments joined by a separator.

  /** The segments of `segs` with `sep` between consecutive ones. */
  function Join(sep: string, segs: seq<string>): string
  {
    if |segs| == 0 then ""
    else if |segs| == 1 then segs[0]
    else segs[0] + sep + Join(sep, segs[1..])
  }

  /** One segment `f(v)` for a present `v`, none for an absent one. */
  function Optional(s: Option<string>, f: string -> string): seq<string>
  {
    match s
    case None => []
    case Some(v) => [f(v)]
  }

  /** The segments of a flat key: the sub-name is part of the third segment. */
  function FlatSegments(naming: Naming, flowId: string, stateName: string,
                        subName: Option<string>, taskRunValue: Option<string>): seq<string>
  {
    [naming.slugify(flowId), "states", stateName + NameSuffix(subName)]
      + Optional(taskRunValue, naming.hashToString)
  }

  /** The segments of a legacy URI below the namespace path: the hash comes
      before the sub-name, which is a segment of its own. */
  function LegacySegments(naming: Naming, flowId: string, stateName: string,
                          subName: Option<string>, taskRunValue: Option<string>): seq<string>
  {
    [naming.slugify(flowId), "states", stateName]
      + Optional(taskRunValue, naming.hashToString)
      + Optional(subName, s => s)
  }

  lemma {:induction false} JoinCons(sep: string, a: string, segs: seq<string>)
    requires |segs| > 0
    ensures Join(sep, [a] + segs) == a + sep + Join(sep, segs)
  {
    var all := [a] + segs;
    assert all[1..] == segs;
  }

  /** Appending one segment appends the separator and that segment. */
  lemma {:induction false} JoinSnoc(sep: string, segs: seq<string>, b: string)
    requires |segs| > 0
    ensures Join(sep, segs + [b]) == Join(sep, segs) + sep + b
    decreases |segs|
  {
    if |segs| == 1 {
      JoinCons(sep, segs[0], [b]);
    } else {
      assert (segs + [b])[1..] == segs[1..] + [b];
      JoinSnoc(sep, segs[1..], b);
    }
  }

  /** Appending an optional segment appends it with its separator, or nothing. */
  lemma JoinAppendOptional(sep: string, segs: seq<string>, opt: Option<string>, f: string -> string)
    requires |segs| > 0
    ensures Join(sep, segs + Optional(opt, f))
         == Join(sep, segs) + (match opt
                               case None => ""
                               case Some(v) => sep + f(v))
  {
    match opt {
      case None =>
        assert segs + Optional(opt, f) == segs;
      case Some(v) =>
        JoinSnoc(sep, segs, f(v));
    }
  }

  /** The three fixed segments joined by `sep`. */
  lemma JoinThree(sep: string, a: string, b: string, c: string)
    ensures Join(sep, [a, b, c]) == a + sep + b + sep + c
  {
    JoinSnoc(sep, [a, b], c);
    JoinSnoc(sep, [a], b);
  }

  /** With both a sub-name and a task-run value, the two encodings order
      them differently: the flat key ends with the hash, the legacy URI
      ends with the sub-name. */
  lemma EncodingsOrderSubNameDifferently(naming: Naming, flow: FlowInfo, stateName: string,
                                         sub: string, taskRunValue: string)
    ensures var key := FlatKey(naming, flow.id, stateName, Some(sub), Some(taskRunValue));
            var h := "_" + naming.hashToString(taskRunValue);
            |key| >= |h| && key[|key| - |h|..] == h
    ensures var uri := LegacyUri(naming, flow, stateName, Some(sub), Some(taskRunValue));
            var s := "/" + sub;
            |uri| >= |s| && uri[|uri| - |s|..] == s
  {
  }

  /** Below the namespace path, state "name_sub" and state "name" with
      sub-name "sub" first differ at position `q`: '_' against '/'. */
  lemma LegacyTailsDiffer(naming: Naming, flowId: string, name: string, sub: string,
                          taskRunValue: Option<string>) returns (q: nat)
    ensures var t1 := StatePrefix(naming, "/", flowId, name + "_" + sub, taskRunValue);
            var t2 := StatePrefix(naming, "/", flowId, name, taskRunValue) + "/" + sub;
            q < |t1| && q < |t2| && t1[q] == '_' && t2[q] == '/'
  {
    var head := naming.slugify(flowId) + "/" + "states" + "/" + name;
    q := |head|;
    var t1 := StatePrefix(naming, "/", flowId, name + "_" + sub, taskRunValue);
    var t2 := StatePrefix(naming, "/", flowId, name, taskRunValue) + "/" + sub;
    match taskRunValue {
      case None =>
        assert t1 == head + ("_" + sub);
        assert t2 == head + ("/" + sub);
      case Some(v) =>
        var h := naming.hashToString(v);
        assert t1 == head + ("_" + sub + "/" + h);
        assert t2 == head + ("/" + h + "/" + sub);
    }
  }

  /** A sub-name collides with an underscore in the state name in the flat
      key, while the legacy URIs of the two stay apart. */
  lemma FlatKeyMergesSubNameIntoStateName(naming: Naming, flow: FlowInfo, name: string,
                                          sub: string, taskRunValue: Option<string>)
    ensures FlatKey(naming, flow.id, name + "_" + sub, None, taskRunValue)
         == FlatKey(naming, flow.id, name, Some(sub), taskRunValue)
    ensures LegacyUri(naming, flow, name + "_" + sub, None, taskRunValue)
         != LegacyUri(naming, flow, name, Some(sub), taskRunValue)
  {
    assert (name + "_" + sub) + NameSuffix(None) == name + NameSuffix(Some(sub));
    var root := "kestra:/" + ReplaceDots(flow.namespace) + "/";
    var t1 := StatePrefix(naming, "/", flow.id, name + "_" + sub, taskRunValue);
    var t2 := StatePrefix(naming, "/", flow.id, name, taskRunValue) + "/" + sub;
    var q := LegacyTailsDiffer(naming, flow.id, name, sub, taskRunValue);
    var u1 := LegacyUri(naming, flow, name + "_" + sub, None, taskRunValue);
    var u2 := LegacyUri(naming, flow, name, Some(sub), taskRunValue);
    assert u1 == root + t1;
    assert u2 == root + t2;
    assert u1[|root| + q] == t1[q];
    assert u2[|root| + q] == t2[q];
  }

  /** The mirror collision: without a task-run value, a sub-name collides
      with a slash in the state name in the legacy URI, while the flat keys
      of the two stay apart. */
  lemma LegacyUriMergesSubNameIntoStateName(naming: Naming, flow: FlowInfo, name: string, sub: string)
    ensures LegacyUri(naming, flow, name + "/" + sub, None, None)
         == LegacyUri(naming, flow, name, Some(sub), None)
    ensures FlatKey(naming, flow.id, name + "/" + sub, None, None)
         != FlatKey(naming, flow.id, name, Some(sub), None)
  {
    var p := naming.slugify(flow.id) + "_" + "states" + "_" + name;
    var k1 := FlatKey(naming, flow.id, name + "/" + sub, None, None);
    var k2 := FlatKey(naming, flow.id, name, Some(sub), None);
    assert k1[..|p|] == p && k1[|p|] == '/';
    assert k2[..|p|] == p && k2[|p|] == '_';
  }
}
