/** FillMetadataOfSourceServiceInfo and SetTransSelectorMeta: the metadata that
    describes the calling service, built in layers. */
module SourceMetadata {
  import opened Prelude
  import opened ExtendInfo
  import opened SelectorContext

  type Labels = map<string, string>

  const META_PREFIX := "selector-meta-"

  predicate StartsWith(s: string, prefix: string) {
    |prefix| <= |s| && s[..|prefix|] == prefix
  }

  function Strip(key: string): string
    requires StartsWith(key, META_PREFIX)
  {
    key[|META_PREFIX|..]
  }

  lemma StripsBack(k: string)
    ensures StartsWith(META_PREFIX + k, META_PREFIX) && Strip(META_PREFIX + k) == k
    ensures StartsWith(k, META_PREFIX) ==> META_PREFIX + Strip(k) == k
  {
  }

  /** What the entries of `trans` under `keys` become without their prefix. No two
      of them collide. */
  ghost function Stripped(trans: Labels, keys: set<string>): (r: Labels)
    requires keys <= trans.Keys
    ensures forall k :: k in r <==> META_PREFIX + k in keys
    ensures forall k :: k in r ==> r[k] == trans[META_PREFIX + k]
  {
    var names := set k | k in keys && StartsWith(k, META_PREFIX) :: Strip(k);
    assert forall k :: k in names <==> META_PREFIX + k in keys by {
      forall k ensures k in names <==> META_PREFIX + k in keys {
        StripsBack(k);
        if k in names {
          var key :| key in keys && StartsWith(key, META_PREFIX) && Strip(key) == k;
          StripsBack(key);
        }
      }
    }
    map k | k in names :: trans[META_PREFIX + k]
  }

  lemma StripOneMore(trans: Labels, metadata: Labels, done: set<string>, key: string)
    requires done <= trans.Keys && key in trans
    ensures
      metadata + Stripped(trans, done + {key})
      == if StartsWith(key, META_PREFIX) then (metadata + Stripped(trans, done))[Strip(key) := trans[key]]
         else metadata + Stripped(trans, done)
  {
    var before, after := Stripped(trans, done), Stripped(trans, done + {key});
    StripsBack(key);
    forall k ensures k in after <==> k in before || (StartsWith(key, META_PREFIX) && k == Strip(key)) {
      StripsBack(k);
    }
  }

  /** SetTransSelectorMeta: the keys come in whatever order the hash map has, and
      the result does not depend on it. */
  method SetTransSelectorMeta(trans: Labels, metadata: Labels) returns (r: Labels)
    ensures r == metadata + Stripped(trans, trans.Keys)
  {
    r := metadata;
    var todo := trans.Keys;
    while todo != {}
      invariant todo <= trans.Keys
      invariant r == metadata + Stripped(trans, trans.Keys - todo)
      decreases todo
    {
      var key :| key in todo;
      ghost var done := trans.Keys - todo;
      StripOneMore(trans, metadata, done, key);
      if StartsWith(key, META_PREFIX) {
        r := r[Strip(key) := trans[key]];
      }
      todo := todo - {key};
      assert trans.Keys - todo == done + {key};
    }
    assert trans.Keys - todo == trans.Keys;
  }

  // ---- The layers ----

  /** The two metadata keys that the SDK defines. */
  datatype SdkKeys = SdkKeys(setForce: string, setName: string)

  /** What one call of FillMetadataOfSourceServiceInfo looks at besides the context. */
  datatype Input = Input(e: Extend, keys: SdkKeys, env: string, transEnabled: bool, trans: Labels)

  /** Each layer overrides those before it. */
  ghost function Layered(labels: Labels, i: Input, setForce: string, setName: string): Labels {
    var withEnv := labels["env" := i.env];
    var withTrans := if i.transEnabled then withEnv + Stripped(i.trans, i.trans.Keys) else withEnv;
    var withForce := withTrans[i.keys.setForce := setForce];
    if setName != "" then withForce[i.keys.setName := setName] else withForce
  }

  method FillLayers(labels: Labels, i: Input, setForce: string, setName: string) returns (metadata: Labels)
    ensures metadata == Layered(labels, i, setForce, setName)
  {
    metadata := labels["env" := i.env];
    if i.transEnabled {
      metadata := SetTransSelectorMeta(i.trans, metadata);
    }
    metadata := metadata[i.keys.setForce := setForce];
    if setName != "" {
      metadata := metadata[i.keys.setName := setName];
    }
  }

  ghost function SourceLabels(d: Data, i: Input): Option<Labels> {
    var setForce, setName := GetValue(d, i.e, "enable_set_force"), GetValue(d, i.e, "callee_set_name");
    match GetMetadata(d, RuleRouteLabel)
    case Abort => None
    case NullPtr => Some(Layered(map[], i, setForce, setName))
    case Found(labels) => Some(Layered(labels, i, setForce, setName))
  }

  /** FillMetadataOfSourceServiceInfo. None: reading the stored labels fails an
      assertion. */
  method FillMetadata(context: ClientContext, i: Input) returns (r: Option<Labels>)
    ensures r == SourceLabels(context.filterData, i)
  {
    var filterMeta := context.GetFilterMetadataOfNaming(RuleRouteLabel);
    if filterMeta.Abort? {
      return None;
    }
    var labels := if filterMeta.Found? then filterMeta.labels else map[];
    var metadata := FillLayers(labels, i, GetValue(context.filterData, i.e, "enable_set_force"),
                               GetValue(context.filterData, i.e, "callee_set_name"));
    return Some(metadata);
  }

  /** What the receiver of the metadata finds under a key. */
  lemma LabelAt(d: Data, i: Input, key: string)
    requires SourceLabels(d, i).Some?
    ensures
      var stored, setName := GetMetadata(d, RuleRouteLabel), GetValue(d, i.e, "callee_set_name");
      Get(SourceLabels(d, i).value, key)
      == if key == i.keys.setName && setName != "" then Some(setName)
         else if key == i.keys.setForce then Some(GetValue(d, i.e, "enable_set_force"))
         else if i.transEnabled && "selector-meta-" + key in i.trans then Some(i.trans["selector-meta-" + key])
         else if key == "env" then Some(i.env)
         else if stored.Found? then Get(stored.labels, key) else None
  {
  }
}
