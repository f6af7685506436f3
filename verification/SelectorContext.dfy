/** The selector's calls on one client context (polarismesh_selector.cc): the
    context object, namespace resolution, and the source metadata it sends. */
module SelectorContext {
  import opened Prelude
  import opened Json
  import opened ExtendInfo

  // ---- Where a call's values come from ----

  /** `extend_select_info`: a null pointer, an `any` of another type, or a map. */
  datatype Extend = NoExtend | NotAMap | Given(fields: map<string, string>)

  /** The namespace of the ServiceProxyOption; None when there is no option. */
  type Proxy = Option<string>

  function ParseExtend(e: Extend, field: string): string {
    if e.Given? && field in e.fields then e.fields[field] else ""
  }

  /** GetValueFromContextOrExtend. */
  function GetValue(d: Data, e: Extend, field: string): string {
    if GetInfo(d, field) != "" then GetInfo(d, field) else ParseExtend(e, field)
  }

  function Resolve(d: Data, e: Extend, proxy: Proxy): (string, Data) {
    var stored := GetInfo(d, "namespace");
    if stored != "" then (stored, d) else
    var given := ParseExtend(e, "namespace");
    var value := if given == "" && proxy.Some? then proxy.value else given;
    if value == "" then (value, d) else (value, SetInfo(d, [("namespace", value)]))
  }

  // ---- The object ----

  /** The loop over the members of a parsed object. */
  method Collect(members: Entries) returns (labels: map<string, string>)
    ensures labels == EmplaceAll(map[], CEntries(members))
  {
    labels := map[];
    var i := 0;
    while i < |members|
      invariant 0 <= i <= |members|
      invariant labels == EmplaceAll(map[], CEntries(members)[..i])
    {
      var name, value := CStr(members[i].0), CStr(members[i].1);
      EmplaceAllOne(map[], CEntries(members)[..i], name, value);
      assert CEntries(members)[..i + 1] == CEntries(members)[..i] + [(name, value)];
      labels := Emplace(labels, name, value);
      i := i + 1;
    }
    assert CEntries(members)[..i] == CEntries(members);
  }

  class ClientContext {
    var filterData: Data

    constructor ()
      ensures filterData == None
    {
      filterData := None;
    }

    method SetSelectorExtendInfo(pairs: Entries)
      modifies this
      ensures filterData == SetInfo(old(filterData), pairs)
    {
      var fields := Fields(filterData);
      var i := 0;
      while i < |pairs|
        invariant 0 <= i <= |pairs|
        invariant fields == EmplaceAll(Fields(old(filterData)), pairs[..i])
      {
        EmplaceAllOne(Fields(old(filterData)), pairs[..i], pairs[i].0, pairs[i].1);
        assert pairs[..i + 1] == pairs[..i] + [(pairs[i].0, pairs[i].1)];
        fields := Emplace(fields, pairs[i].0, pairs[i].1);
        i := i + 1;
      }
      assert pairs[..i] == pairs;
      filterData := Some(fields);
    }

    method GetSelectorExtendInfo(key: string) returns (value: string)
      ensures value == GetInfo(filterData, key)
    {
      if filterData.Some? && key in filterData.value {
        return filterData.value[key];
      }
      return "";
    }

    /** `entries` is the map's content in the order of its iteration. */
    method SetFilterMetadataOfNaming(entries: Entries, t: MetadataType)
      modifies this
      ensures filterData == SetMetadata(old(filterData), t, entries)
    {
      var members: Entries := [];
      var i := 0;
      while i < |entries|
        invariant 0 <= i <= |entries|
        invariant members == CEntries(entries)[..i]
      {
        members := members + [(CStr(entries[i].0), CStr(entries[i].1))];
        i := i + 1;
      }
      assert members == CEntries(entries);
      var text := CStr(WriteObject(members));
      SetSelectorExtendInfo([(MetadataKey(t), text)]);
    }

    method GetFilterMetadataOfNaming(t: MetadataType) returns (r: Metadata)
      ensures r == GetMetadata(filterData, t)
    {
      var key := MetadataKey(t);
      if filterData.None? || key !in filterData.value {
        return NullPtr;
      }
      var parsed := ReadObject(CStr(filterData.value[key]));
      if parsed.None? {
        return Abort;
      }
      var labels := Collect(parsed.value);
      return if |labels| > 0 then Found(labels) else NullPtr;
    }

    /** GetNamespaceFromContextOrExtend. */
    method GetNamespace(e: Extend, proxy: Proxy) returns (value: string)
      modifies this
      ensures (value, filterData) == Resolve(old(filterData), e, proxy)
    {
      value := GetSelectorExtendInfo("namespace");
      if value == "" {
        value := ParseExtend(e, "namespace");
        if value == "" && proxy.Some? {
          value := proxy.value;
        }
        if value != "" {
          SetSelectorExtendInfo([("namespace", value)]);
        }
      }
    }
  }

  // ---- Namespace resolution ----

  function FirstNonEmpty(candidates: seq<string>): string {
    if candidates == [] then ""
    else if candidates[0] != "" then candidates[0]
    else FirstNonEmpty(candidates[1..])
  }

  /** The context goes before the extend info, and that before the proxy option. */
  lemma NamespacePriority(d: Data, e: Extend, proxy: Proxy)
    ensures Resolve(d, e, proxy).0
         == FirstNonEmpty([GetInfo(d, "namespace"), ParseExtend(e, "namespace"), OrEmpty(proxy)])
  {
    var candidates := [GetInfo(d, "namespace"), ParseExtend(e, "namespace"), OrEmpty(proxy)];
    assert candidates[1..] == [candidates[1], candidates[2]] && candidates[1..][1..] == [candidates[2]];
    assert FirstNonEmpty([candidates[2]]) == candidates[2];
  }

  /** Other fields: the context goes before the extend info. */
  lemma ValuePriority(d: Data, e: Extend, field: string)
    ensures GetValue(d, e, field) == FirstNonEmpty([GetInfo(d, field), ParseExtend(e, field)])
  {
    var candidates := [GetInfo(d, field), ParseExtend(e, field)];
    assert candidates[1..] == [candidates[1]];
    assert FirstNonEmpty([candidates[1]]) == candidates[1];
  }

  /** The context names the namespace, but with an empty value. */
  predicate HoldsEmpty(d: Data) {
    "namespace" in Fields(d) && Fields(d)["namespace"] == ""
  }

  lemma ResolveStores(d: Data, e: Extend, proxy: Proxy)
    ensures
      var (v, d') := Resolve(d, e, proxy);
      && (v == "" ==> d' == d)
      && (v != "" && !HoldsEmpty(d) ==> GetInfo(d', "namespace") == v)
      && (HoldsEmpty(d) ==> Fields(d') == Fields(d))
  {
    var v := Resolve(d, e, proxy).0;
    EmplaceAllOne(Fields(d), [], "namespace", v);
    assert [] + [("namespace", v)] == [("namespace", v)];
  }

  /** A namespace once resolved is the answer for ever, whatever is passed later;
      the only exception is a context where the key was set to the empty string,
      which `emplace` can then not replace. */
  lemma NamespaceIsSticky(d: Data, e: Extend, proxy: Proxy)
    requires Resolve(d, e, proxy).0 != ""
    ensures
      var (v, d') := Resolve(d, e, proxy);
      (forall e2: Extend, p2: Proxy :: Resolve(d', e2, p2).0 == v) <==> !HoldsEmpty(d)
  {
    ResolveStores(d, e, proxy);
    var (v, d') := Resolve(d, e, proxy);
    if HoldsEmpty(d) {
      assert Resolve(d', NoExtend, None).0 == "";
    }
  }

  /** A context whose namespace was stored empty: each call is on its own. */
  lemma StoredEmptyIsNotSticky()
    ensures
      var d := SetInfo(None, [("namespace", "")]);
      var (v, d') := Resolve(d, NoExtend, Some("Production"));
      v == "Production" && Resolve(d', NoExtend, Some("Test")).0 == "Test"
  {
    EmplaceAllOne(map[], [], "namespace", "");
    assert [] + [("namespace", "")] == [("namespace", "")];
    var d := SetInfo(None, [("namespace", "")]);
    ResolveStores(d, NoExtend, Some("Production"));
  }

  /** GetSourceServiceKey: the namespace of the caller's own service. */
  function SourceNamespace(global: string, d: Data, e: Extend, proxy: Proxy): (string, Data) {
    if global != "" then (global, d) else Resolve(d, e, proxy)
  }

  datatype Call =
    | Select(e: Extend, proxy: Proxy)       // also SelectBatch with policy MULTIPLE
    | SelectBatch(e: Extend, proxy: Proxy)  // the other policies
    | Report(proxy: Proxy)
    | Change(put: Put)                      // the user sets extend info or metadata

  /** The source and the callee namespace of the request that a call sends. */
  function Do(global: string, d: Data, c: Call): (seq<string>, Data) {
    match c
    case Select(e, proxy) =>
      var (source, d1) := SourceNamespace(global, d, e, proxy);
      var (callee, d2) := Resolve(d1, e, proxy);
      ([source, callee], d2)
    case SelectBatch(e, proxy) =>
      var (source, d1) := SourceNamespace(global, d, e, proxy);
      ([source, source], d1)
    case Report(proxy) =>
      var (source, d1) := SourceNamespace(global, d, NoExtend, proxy);
      ([source, source], d1)
    case Change(put) => ([], Apply(d, put))
  }

  /** What each call sends, at any global namespace: as its source the first that is
      not empty of global namespace, context, extend info (none for Report) and proxy
      option; as its callee the same for SelectBatch and Report, and for Select what
      remains without the global one. A global namespace keeps SelectBatch and Report
      from touching the context. */
  lemma NamespacesSent(global: string, d: Data, e: Extend, proxy: Proxy)
    ensures
      var stored, given, option := GetInfo(d, "namespace"), ParseExtend(e, "namespace"), OrEmpty(proxy);
      var batch := FirstNonEmpty([global, stored, given, option]);
      var report := FirstNonEmpty([global, stored, option]);
      && Do(global, d, Select(e, proxy)).0 == [batch, FirstNonEmpty([stored, given, option])]
      && Do(global, d, SelectBatch(e, proxy)).0 == [batch, batch]
      && Do(global, d, Report(proxy)).0 == [report, report]
      && (global != "" ==> Do(global, d, SelectBatch(e, proxy)).1 == d && Do(global, d, Report(proxy)).1 == d)
  {
    var stored, given, option := GetInfo(d, "namespace"), ParseExtend(e, "namespace"), OrEmpty(proxy);
    NamespacePriority(d, e, proxy);
    NamespacePriority(d, NoExtend, proxy);
    ResolveStores(d, e, proxy);
    assert [global, stored, given, option][1..] == [stored, given, option];
    assert [global, stored, option][1..] == [stored, option] && [stored, option][1..] == [option];
    assert [stored, "", option][1..] == ["", option] && ["", option][1..] == [option];
    var d1 := SourceNamespace(global, d, e, proxy).1;
    NamespacePriority(d1, e, proxy);
    if HoldsEmpty(d) { assert Fields(d1) == Fields(d); }
  }

  /** What each call leaves in the context: the namespace it resolved, if none was
      stored before, and nothing else. */
  lemma NamespaceStored(global: string, d: Data, c: Call)
    requires !c.Change?
    ensures
      var found := FirstNonEmpty([if c.Report? then "" else ParseExtend(c.e, "namespace"), OrEmpty(c.proxy)]);
      var d' := Do(global, d, c).1;
      Fields(d') == if "namespace" in Fields(d) || found == "" || (global != "" && !c.Select?) then Fields(d)
                    else Fields(d)["namespace" := found]
  {
    var e := if c.Report? then NoExtend else c.e;
    var given, option := ParseExtend(e, "namespace"), OrEmpty(c.proxy);
    NamespacePriority(d, e, c.proxy);
    assert [GetInfo(d, "namespace"), given, option][1..] == [given, option];
    EmplaceAllOne(Fields(d), [], "namespace", Resolve(d, e, c.proxy).0);
    assert [] + [("namespace", Resolve(d, e, c.proxy).0)] == [("namespace", Resolve(d, e, c.proxy).0)];
    var d1 := SourceNamespace(global, d, e, c.proxy).1;
    if c.Select? && global == "" && d1 != d {
      assert GetInfo(d1, "namespace") != "";
    }
  }

  /** A user's change sends nothing and stores, for each key that was free, the first
      value it gives. */
  lemma ChangeStores(global: string, d: Data, put: Put, key: string)
    ensures
      var (sent, d') := Do(global, d, Change(put));
      && sent == []
      && Get(Fields(d'), key) == if key in Fields(d) then Some(Fields(d)[key]) else FirstValue(Writes(put), key)
  {
    EmplaceAllGet(Fields(d), Writes(put), key);
  }

  /** All namespaces sent during a run of calls on one context. */
  function Sent(global: string, d: Data, cs: seq<Call>): seq<string>
    decreases |cs|
  {
    if cs == [] then [] else
    var (used, d') := Do(global, d, cs[0]);
    used + Sent(global, d', cs[1..])
  }

  lemma ChangeKeepsNamespace(d: Data, put: Put)
    requires "namespace" in Fields(d)
    ensures "namespace" in Fields(Apply(d, put))
    ensures Fields(Apply(d, put))["namespace"] == Fields(d)["namespace"]
  {
    EmplaceAllGet(Fields(d), Writes(put), "namespace");
  }

  lemma {:induction false} OneNamespace(d: Data, cs: seq<Call>)
    requires GetInfo(d, "namespace") != ""
    ensures forall s :: s in Sent("", d, cs) ==> s == GetInfo(d, "namespace")
    decreases |cs|
  {
    if cs != [] {
      var d' := Do("", d, cs[0]).1;
      if cs[0].Change? { ChangeKeepsNamespace(d, cs[0].put); }
      OneNamespace(d', cs[1..]);
    }
  }

  /** The context after a run of calls. */
  function After(global: string, d: Data, cs: seq<Call>): Data
    decreases |cs|
  {
    if cs == [] then d else After(global, Do(global, d, cs[0]).1, cs[1..])
  }

  /** A namespace once stored empty stays so. */
  lemma {:induction false} EmptyStays(d: Data, cs: seq<Call>)
    requires HoldsEmpty(d)
    ensures HoldsEmpty(After("", d, cs))
    decreases |cs|
  {
    if cs != [] {
      var c := cs[0];
      if c.Change? {
        ChangeKeepsNamespace(d, c.put);
      } else {
        ResolveStores(d, if c.Report? then NoExtend else c.e, c.proxy);
      }
      EmptyStays(Do("", d, c).1, cs[1..]);
    }
  }

  lemma CallNamesOne(d: Data, c: Call)
    requires !c.Change? && !HoldsEmpty(d)
    ensures
      var (used, d') := Do("", d, c);
      && |used| == 2 && used[0] == used[1]
      && if used[0] == "" then d' == d else GetInfo(d', "namespace") == used[0]
  {
    ResolveStores(d, if c.Report? then NoExtend else c.e, c.proxy);
  }

  /** Over any run of Select, SelectBatch, Report and user changes on one context
      that does not end with the namespace stored empty, with no global namespace,
      every request after the first that names a namespace names the same one, as
      its source and as its callee. */
  lemma {:induction false} NamespacesAgree(d: Data, cs: seq<Call>, i: nat, j: nat)
    requires !HoldsEmpty(After("", d, cs))
    requires i <= j < |Sent("", d, cs)| && Sent("", d, cs)[i] != ""
    ensures Sent("", d, cs)[j] == Sent("", d, cs)[i]
    decreases |cs|
  {
    var c := cs[0];
    var (used, d') := Do("", d, c);
    var more := Sent("", d', cs[1..]);
    assert Sent("", d, cs) == used + more;
    if c.Change? {
      NamespacesAgree(d', cs[1..], i, j);
    } else {
      if HoldsEmpty(d) { EmptyStays(d, cs); }
      CallNamesOne(d, c);
      if used[0] == "" {
        NamespacesAgree(d', cs[1..], i - 2, j - 2);
      } else {
        OneNamespace(d', cs[1..]);
        if j >= 2 { assert more[j - 2] in more; }
        if i >= 2 { assert more[i - 2] in more; }
      }
    }
  }

  lemma {:induction false} NamespaceStays(d: Data, cs: seq<Call>)
    requires GetInfo(d, "namespace") != ""
    ensures GetInfo(After("", d, cs), "namespace") != ""
    decreases |cs|
  {
    if cs != [] {
      if cs[0].Change? { ChangeKeepsNamespace(d, cs[0].put); }
      NamespaceStays(Do("", d, cs[0]).1, cs[1..]);
    }
  }

  /** What a call names by itself: its extend info or else its proxy option. */
  function OwnNamespaces(c: Call): seq<string> {
    match c
    case Change(_) => []
    case Report(proxy) => [OrEmpty(proxy), OrEmpty(proxy)]
    case _ =>
      var own := FirstNonEmpty([ParseExtend(c.e, "namespace"), OrEmpty(c.proxy)]);
      [own, own]
  }

  function AllOwnNamespaces(cs: seq<Call>): seq<string> {
    if cs == [] then [] else OwnNamespaces(cs[0]) + AllOwnNamespaces(cs[1..])
  }

  lemma CallNamesItsOwn(d: Data, c: Call)
    requires GetInfo(d, "namespace") == "" && !c.Change?
    ensures Do("", d, c).0 == OwnNamespaces(c)
  {
    var e := if c.Report? then NoExtend else c.e;
    NamespacePriority(d, e, c.proxy);
    ResolveStores(d, e, c.proxy);
    var candidates := [GetInfo(d, "namespace"), ParseExtend(e, "namespace"), OrEmpty(c.proxy)];
    assert candidates[1..] == [candidates[1], candidates[2]] && candidates[1..][1..] == [candidates[2]];
    assert FirstNonEmpty([candidates[2]]) == candidates[2];
    if HoldsEmpty(d) && c.Select? {
      assert Fields(Resolve(d, e, c.proxy).1) == Fields(d);
      NamespacePriority(Resolve(d, e, c.proxy).1, e, c.proxy);
    }
  }

  /** The other runs, those that end with the namespace stored empty: no call ever
      sees another's namespace, each names its own. */
  lemma {:induction false} StoredEmptyEachItsOwn(d: Data, cs: seq<Call>)
    requires HoldsEmpty(After("", d, cs))
    ensures Sent("", d, cs) == AllOwnNamespaces(cs)
    decreases |cs|
  {
    if cs != [] {
      var c, d' := cs[0], Do("", d, cs[0]).1;
      if GetInfo(d, "namespace") != "" {
        NamespaceStays(d, cs);
      } else if !c.Change? {
        CallNamesItsOwn(d, c);
      }
      StoredEmptyEachItsOwn(d', cs[1..]);
    }
  }

  /** With a global namespace the two ways to select part: Select asks for the
      callee in the namespace of the context, the extend info or the proxy option,
      SelectBatch in the global one. */
  lemma SelectAndBatchAgree(global: string, d: Data, e: Extend, proxy: Proxy)
    ensures
      Do(global, d, Select(e, proxy)).0[1] == Do(global, d, SelectBatch(e, proxy)).0[1]
      <==>
      global == ""
      || FirstNonEmpty([GetInfo(d, "namespace"), ParseExtend(e, "namespace"), OrEmpty(proxy)]) == global
  {
    NamespacePriority(d, e, proxy);
    ResolveStores(d, e, proxy);
    if global == "" && HoldsEmpty(d) {
      assert Fields(Resolve(d, e, proxy).1) == Fields(d);
    }
  }

  /** A proxy that is configured for another namespace than the global one. */
  lemma SelectAndBatchPart()
    ensures
      var proxy := Some("Production");
      && Do("Test", None, Select(NoExtend, proxy)).0 == ["Test", "Production"]
      && Do("Test", None, SelectBatch(NoExtend, proxy)).0 == ["Test", "Test"]
  {
  }
}
