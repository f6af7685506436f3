/** The per-call state that the selector keeps in the client context
    (polarismesh_selector.h:42-161): one map of strings, written only by
    `emplace`, in which metadata maps are stored as JSON text. */
module ExtendInfo {
  import opened Prelude
  import opened Json
  import JsonGrammar

  /** The filter data of the selector's plugin id; None before the first write. */
  type Data = Option<map<string, string>>

  function Fields(d: Data): map<string, string> {
    if d.None? then map[] else d.value
  }

  /** SetSelectorExtendInfo. */
  function SetInfo(d: Data, pairs: Entries): Data {
    Some(EmplaceAll(Fields(d), pairs))
  }

  /** GetSelectorExtendInfo. */
  function GetInfo(d: Data, key: string): string {
    if key in Fields(d) then Fields(d)[key] else ""
  }

  // ---- Metadata ----

  datatype MetadataType = RuleRouteLabel | DstMetaRouteLabel | CircuitBreakLabel | SubsetLabel | TypeNum

  function MetadataKey(t: MetadataType): string {
    "metadata_" + match t
                  case RuleRouteLabel => "0"
                  case DstMetaRouteLabel => "1"
                  case CircuitBreakLabel => "2"
                  case SubsetLabel => "3"
                  case TypeNum => "4"
  }

  /** The keys as users of the extend info see them. */
  lemma MetadataKeysAre()
    ensures MetadataKey(RuleRouteLabel) == "metadata_0" && MetadataKey(DstMetaRouteLabel) == "metadata_1"
    ensures MetadataKey(CircuitBreakLabel) == "metadata_2" && MetadataKey(SubsetLabel) == "metadata_3"
    ensures MetadataKey(TypeNum) == "metadata_4"
  {
  }

  lemma MetadataKeysDiffer(t: MetadataType, u: MetadataType)
    requires t != u
    ensures MetadataKey(t) != MetadataKey(u)
  {
    assert MetadataKey(t)[9] != MetadataKey(u)[9];
  }

  /** What a `const char*` shows of a string: the part before the first NUL. */
  function CStr(s: string): (r: string)
    ensures NulFree(r)
    ensures r == s <==> NulFree(s)
  {
    if s == "" || s[0] == NUL then "" else [s[0]] + CStr(s[1..])
  }

  function CEntries(entries: Entries): (r: Entries)
    ensures |r| == |entries|
  {
    seq(|entries|, i requires 0 <= i < |entries| => (CStr(entries[i].0), CStr(entries[i].1)))
  }

  /** The text that SetFilterMetadataOfNaming stores for a map, given the map's
      entries in the order of its iteration. */
  function MetadataText(entries: Entries): string {
    CStr(WriteObject(CEntries(entries)))
  }

  function SetMetadata(d: Data, t: MetadataType, entries: Entries): Data {
    SetInfo(d, [(MetadataKey(t), MetadataText(entries))])
  }

  /** NullPtr when nothing or an empty map is stored; Abort when the text is not an
      object of strings, which fails an assertion of the JSON library. */
  datatype Metadata = NullPtr | Found(labels: map<string, string>) | Abort

  function ReadMetadata(text: string): Metadata {
    match ReadObject(CStr(text))
    case None => Abort
    case Some(members) =>
      var m := EmplaceAll(map[], CEntries(members));
      if m == map[] then NullPtr else Found(m)
  }

  /** GetFilterMetadataOfNaming. */
  function GetMetadata(d: Data, t: MetadataType): Metadata {
    if MetadataKey(t) in Fields(d) then ReadMetadata(Fields(d)[MetadataKey(t)]) else NullPtr
  }

  /** `entries` is a listing of the map `m`, in any order. */
  ghost predicate Lists(entries: Entries, m: map<string, string>) {
    && (forall i, j :: 0 <= i < j < |entries| ==> entries[i].0 != entries[j].0)
    && EmplaceAll(map[], entries) == m
  }

  lemma CEntriesTwice(entries: Entries)
    ensures CEntries(CEntries(entries)) == CEntries(entries)
  {
  }

  /** What a stored text reads back as, for every map. */
  lemma ReadBack(entries: Entries)
    ensures
      var m := EmplaceAll(map[], CEntries(entries));
      ReadMetadata(MetadataText(entries)) == if m == map[] then NullPtr else Found(m)
  {
    var c := CEntries(entries);
    WriteObjectIsNulFree(c);
    ReadWrittenObject(c);
    CEntriesTwice(entries);
  }

  lemma {:induction false} FirstValueFrom(entries: Entries, k: string)
    requires FirstValue(entries, k).Some?
    ensures exists i :: 0 <= i < |entries| && entries[i] == (k, FirstValue(entries, k).value)
  {
    if entries[0].0 != k {
      FirstValueFrom(entries[1..], k);
      var i :| 0 <= i < |entries[1..]| && entries[1..][i] == (k, FirstValue(entries[1..], k).value);
      assert entries[i + 1] == entries[1..][i];
    }
  }

  lemma EmplacedFrom(entries: Entries, k: string)
    requires k in EmplaceAll(map[], entries)
    ensures exists i :: 0 <= i < |entries| && entries[i] == (k, EmplaceAll(map[], entries)[k])
  {
    EmplaceAllGet(map[], entries, k);
    FirstValueFrom(entries, k);
  }

  lemma {:induction false} ListedIsFirst(entries: Entries, i: nat)
    requires i < |entries|
    requires forall i, j :: 0 <= i < j < |entries| ==> entries[i].0 != entries[j].0
    ensures FirstValue(entries, entries[i].0) == Some(entries[i].1)
  {
    if i > 0 {
      var rest := entries[1..];
      assert forall a, b :: 0 <= a < b < |rest| ==> rest[a] == entries[a + 1] && rest[b] == entries[b + 1];
      ListedIsFirst(rest, i - 1);
      assert rest[i - 1] == entries[i];
    }
  }

  ghost predicate NulFreeMap(m: map<string, string>) {
    forall k :: k in m ==> NulFree(k) && NulFree(m[k])
  }

  /** Setting metadata on a context that has none of that type and getting it back
      returns the same map exactly when no name and no value contains a NUL; the
      empty map reads back as null. */
  lemma MetadataRoundTrip(d: Data, t: MetadataType, entries: Entries, m: map<string, string>)
    requires Lists(entries, m) && MetadataKey(t) !in Fields(d)
    ensures
      var got := GetMetadata(SetMetadata(d, t, entries), t);
      && got != Abort
      && (got == NullPtr <==> m == map[])
      && (got == Found(m) <==> m != map[] && NulFreeMap(m))
  {
    var c := CEntries(entries);
    var key, text := MetadataKey(t), MetadataText(entries);
    EmplaceAllOne(Fields(d), [], key, text);
    assert [] + [(key, text)] == [(key, text)];
    ReadBack(entries);
    var got := EmplaceAll(map[], c);
    if m != map[] {
      assert |entries| > 0;
      EmplaceAllGet(map[], c, c[0].0);
      assert c[0].0 in got;
    }
    if got == m {
      forall k | k in m ensures NulFree(k) && NulFree(m[k]) { EmplacedFrom(c, k); }
    }
    if NulFreeMap(m) {
      forall i | 0 <= i < |entries| ensures c[i] == entries[i] {
        ListedIsFirst(entries, i);
        EmplaceAllGet(map[], entries, entries[i].0);
      }
      assert c == entries;
    }
  }

  /** A NUL that does not survive: the value comes back cut off there. */
  lemma NulIsLost(d: Data, t: MetadataType)
    requires MetadataKey(t) !in Fields(d)
    ensures
      var m := map["set" := ['a', 0 as char, 'b']];
      Lists([("set", ['a', 0 as char, 'b'])], m)
      && GetMetadata(SetMetadata(d, t, [("set", ['a', 0 as char, 'b'])]), t) == Found(map["set" := "a"])
  {
    var value := ['a', 0 as char, 'b'];
    var entries := [("set", value)];
    assert CStr(value) == "a" by {
      assert value[1..][0] == NUL;
    }
    assert CEntries(entries) == [("set", "a")];
    var stored := (MetadataKey(t), MetadataText(entries));
    EmplaceAllOne(Fields(d), [], stored.0, stored.1);
    assert [] + [stored] == [stored];
    ReadBack(entries);
    EmplaceAllOne(map[], [], "set", "a");
    EmplaceAllOne(map[], [], "set", value);
    assert [] + [("set", "a")] == [("set", "a")] && [] + entries == entries;
  }

  /** A user may also store a text under a metadata key: a get fails the library's
      assertion exactly if the text, up to its first NUL, is no object of strings. */
  lemma GetAbortsIff(d: Data, t: MetadataType)
    ensures
      GetMetadata(d, t) == Abort <==>
        MetadataKey(t) in Fields(d) && !JsonGrammar.SpellsObject(CStr(Fields(d)[MetadataKey(t)]))
  {
    if MetadataKey(t) in Fields(d) {
      JsonGrammar.ReadIffSpelled(CStr(Fields(d)[MetadataKey(t)]));
    }
  }

  // ---- Whole histories of one context ----

  datatype Put =
    | PutInfo(pairs: Entries)
    | PutMetadata(t: MetadataType, entries: Entries)

  function Apply(d: Data, p: Put): Data {
    match p
    case PutInfo(pairs) => SetInfo(d, pairs)
    case PutMetadata(t, entries) => SetMetadata(d, t, entries)
  }

  function ApplyAll(d: Data, ps: seq<Put>): Data
    decreases |ps|
  {
    if ps == [] then d else ApplyAll(Apply(d, ps[0]), ps[1..])
  }

  function Writes(p: Put): Entries {
    match p
    case PutInfo(pairs) => pairs
    case PutMetadata(t, entries) => [(MetadataKey(t), MetadataText(entries))]
  }

  function Flatten(ps: seq<Put>): Entries {
    if ps == [] then [] else Writes(ps[0]) + Flatten(ps[1..])
  }

  lemma {:induction false} HistoryIsFirstWins(d: Data, ps: seq<Put>)
    ensures Fields(ApplyAll(d, ps)) == EmplaceAll(Fields(d), Flatten(ps))
    decreases |ps|
  {
    if ps != [] {
      HistoryIsFirstWins(Apply(d, ps[0]), ps[1..]);
      EmplaceAllAppend(Fields(d), Writes(ps[0]), Flatten(ps[1..]));
    }
  }

  function OrEmpty(v: Option<string>): string {
    if v.Some? then v.value else ""
  }

  /** After any history a get returns the first value ever given for the key, or
      the empty string. */
  lemma FirstWriteWins(ps: seq<Put>, key: string)
    ensures GetInfo(ApplyAll(None, ps), key) == OrEmpty(FirstValue(Flatten(ps), key))
  {
    HistoryIsFirstWins(None, ps);
    EmplaceAllGet(map[], Flatten(ps), key);
  }

  /** How the pairs are grouped into calls never shows. */
  lemma RegroupingIsInvisible(d: Data, ps: seq<Put>, qs: seq<Put>, key: string, t: MetadataType)
    requires Flatten(ps) == Flatten(qs)
    ensures GetInfo(ApplyAll(d, ps), key) == GetInfo(ApplyAll(d, qs), key)
    ensures GetMetadata(ApplyAll(d, ps), t) == GetMetadata(ApplyAll(d, qs), t)
  {
    HistoryIsFirstWins(d, ps);
    HistoryIsFirstWins(d, qs);
  }

  /** The first metadata of a type in a history. */
  function FirstMetadata(ps: seq<Put>, t: MetadataType): Option<Entries> {
    if ps == [] then None
    else if ps[0].PutMetadata? && ps[0].t == t then Some(ps[0].entries)
    else FirstMetadata(ps[1..], t)
  }

  predicate LeavesKeyAlone(p: Put, key: string) {
    p.PutInfo? ==> forall i :: 0 <= i < |p.pairs| ==> p.pairs[i].0 != key
  }

  lemma {:induction false} NoFirstValue(entries: Entries, key: string)
    requires forall i :: 0 <= i < |entries| ==> entries[i].0 != key
    ensures FirstValue(entries, key) == None
  {
    if entries != [] { NoFirstValue(entries[1..], key); }
  }

  lemma {:induction false} FirstMetadataIsFirstValue(ps: seq<Put>, t: MetadataType)
    requires forall p :: p in ps ==> LeavesKeyAlone(p, MetadataKey(t))
    ensures
      FirstValue(Flatten(ps), MetadataKey(t))
      == match FirstMetadata(ps, t) case None => None case Some(entries) => Some(MetadataText(entries))
  {
    if ps != [] {
      var p, key := ps[0], MetadataKey(t);
      assert p in ps;
      FirstValueAppend(Writes(p), Flatten(ps[1..]), key);
      if p.PutMetadata? && p.t != t { MetadataKeysDiffer(p.t, t); }
      if !(p.PutMetadata? && p.t == t) {
        NoFirstValue(Writes(p), key);
        FirstMetadataIsFirstValue(ps[1..], t);
      }
    }
  }

  /** Over any history the metadata of a type is what its own first call stored:
      the other types, later calls and other keys do not interfere. */
  lemma MetadataTypesDoNotInterfere(ps: seq<Put>, t: MetadataType)
    requires forall p :: p in ps ==> LeavesKeyAlone(p, MetadataKey(t))
    ensures
      GetMetadata(ApplyAll(None, ps), t)
      == match FirstMetadata(ps, t)
         case None => NullPtr
         case Some(entries) => ReadMetadata(MetadataText(entries))
  {
    HistoryIsFirstWins(None, ps);
    EmplaceAllGet(map[], Flatten(ps), MetadataKey(t));
    FirstMetadataIsFirstValue(ps, t);
  }
}
