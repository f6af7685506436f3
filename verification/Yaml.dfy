/** The YAML node tree that the configuration codec builds and reads, with the
    rules of yaml-cpp for looking up a key and converting a node. */
module Yaml {
  import opened Prelude

  /** The keys the codec knows, one constructor for each key text, named after it
      (KBindIp is "bindIP", KDynamicWeight is "dynamic_weight"); any text that is
      none of them is `Other`. */
  datatype Key =
    | KNamespace | KService | KDiscoverCluster | KHealthCheckCluster | KMonitorCluster
    | KRegion | KZone | KCampus | KEnableUpdate | KBindIp | KBindIf | KReportInterval | KLocation
    | KTimeout | KMessageTimeout | KJoinPoint | KProtocol | KRefreshInterval | KAddresses | KServerSwitchInterval
    | KName | KEnable | KMetricsName | KSystem | KApi | KServerConnector | KServerMetric
    | KType | KServiceExpireTime | KServiceRefreshInterval | KPersistDir
    | KCircuitBreaker | KOutlierDetection | KLoadBalancer | KServiceRouter | KLocalCache | KEnableTransMeta
    | KIsOpenDynamicWeight | KGlobal | KConsumer | KDynamicWeight
    | KEnableDynamicWeight | KVnodeCount | KCompatibleGo | KCheckPeriod | KChain
    | KMatchLevel | KMaxMatchLevel | KStrictNearby | KEnableDegrade | KUnhealthyPercent | KEnableRecoverAll
    | KNearbyBasedRouter | KPercentOfMinInstances | KPlugin
    | KContinuousErrorThreshold | KSleepWindow | KRequestCount | KSuccessCount | KMetricExpiredTime
    | KRequestVolumeThreshold | KErrorRateThreshold | KMetricStatTimeWindow | KMetricNumBuckets
    | KErrorCount | KErrorRate | KSetCircuitBreaker
    | Other(text: string)

  datatype Node =
    | Null
    | Scalar(text: string)
    | Sequence(items: seq<Node>)
    | Map(fields: map<Key, Node>)

  /** `node[key]` where it is defined; callers have excluded scalars, on which the
      subscript throws. */
  function Field(n: Node, k: Key): Option<Node> {
    if n.Map? then Get(n.fields, k) else None
  }

  /** `if (written) node[k] = v;` */
  function Assign(fields: map<Key, Node>, written: bool, k: Key, v: Node): map<Key, Node> {
    if written then fields[k := v] else fields
  }

  /** What a range-for over a node yields; the pairs of a map do not convert. */
  function Items(n: Node): Result<seq<Node>> {
    match n
    case Sequence(items) => Ok(items)
    case Map(fields) => if fields == map[] then Ok([]) else Err
    case _ => Ok([])
  }

  type uint64 = n: int | 0 <= n < 0x1_0000_0000_0000_0000
  type uint32 = n: int | 0 <= n < 0x1_0000_0000
  type int32 = n: int | -0x8000_0000 <= n < 0x8000_0000

  /** The 32 bits of a C++ `float` (IEEE 754, binary32). All NaNs are one value, as
      they are in YAML. */
  predicate IsFloat32(bits: int) {
    0 <= bits < 0x1_0000_0000 && (bits % 0x8000_0000 > 0x7F80_0000 ==> bits == 0x7FC0_0000)
  }

  type float32 = bits: int | IsFloat32(bits)

  const FLOAT_ZERO: float32 := 0
  const FLOAT_HALF: float32 := 0x3F00_0000

  /** How the library prints and reads scalars; `nullText` is what a null node
      reads as when a string is wanted, None if that throws. */
  datatype Scalars = Scalars(
    showInt: int -> string, readInt: string -> Option<int>,
    showBool: bool -> string, readBool: string -> Option<bool>,
    showFloat: float32 -> string, readFloat: string -> Option<float32>,
    nullText: Option<string>)

  /** What the codec relies on: a printed scalar is read back. */
  ghost predicate Faithful(y: Scalars) {
    && (forall n: int :: y.readInt(y.showInt(n)) == Some(n))
    && (forall b: bool :: y.readBool(y.showBool(b)) == Some(b))
    && (forall f: float32 :: y.readFloat(y.showFloat(f)) == Some(f))
  }

  // ---- Some library is faithful ----

  function Tally(n: int): string {
    if n < 0 then seq(-n, _ => '-') else seq(n, _ => '+')
  }

  function Counted(text: string): int {
    if text != "" && text[0] == '-' then -|text| else |text|
  }

  lemma TallyCounted(n: int)
    ensures Counted(Tally(n)) == n
  {
  }

  function CountedFloat(text: string): Option<float32> {
    if IsFloat32(Counted(text)) then Some(Counted(text)) else None
  }

  /** The library that prints every scalar as a tally. */
  function TallyScalars(): Scalars {
    Scalars(Tally, text => Some(Counted(text)), b => if b then "+" else "", text => Some(text != ""),
            (f: float32) => Tally(f), CountedFloat, None)
  }

  /** The theorems about faithful libraries are about something. */
  lemma FaithfulScalarsExist()
    ensures exists y: Scalars :: Faithful(y)
  {
    var y := TallyScalars();
    forall n: int ensures y.readInt(y.showInt(n)) == Some(n) { TallyCounted(n); }
    forall f: float32 ensures y.readFloat(y.showFloat(f)) == Some(f) { TallyCounted(f); }
    assert Faithful(y);
  }

  // ---- Nodes of scalars, and back ----

  function FromInt(y: Scalars, n: int): Node { Scalar(y.showInt(n)) }

  function FromBool(y: Scalars, b: bool): Node { Scalar(y.showBool(b)) }

  function FromFloat(y: Scalars, f: float32): Node { Scalar(y.showFloat(f)) }

  function FromStrings(s: seq<string>): (r: Node)
    ensures r.Sequence? && |r.items| == |s| && forall i :: 0 <= i < |s| ==> r.items[i] == Scalar(s[i])
  {
    Sequence(seq(|s|, i requires 0 <= i < |s| => Scalar(s[i])))
  }

  function AsString(y: Scalars, n: Node): Result<string> {
    match n
    case Scalar(text) => Ok(text)
    case Null => if y.nullText.Some? then Ok(y.nullText.value) else Err
    case _ => Err
  }

  /** The library reads an integer and checks the range of the wanted type. */
  function AsInt(y: Scalars, n: Node, low: int, high: int): (r: Result<int>)
    ensures r.Ok? ==> low <= r.value < high
  {
    if n.Scalar? && y.readInt(n.text).Some? && low <= y.readInt(n.text).value < high
    then Ok(y.readInt(n.text).value) else Err
  }

  function AsBool(y: Scalars, n: Node): Result<bool> {
    if n.Scalar? && y.readBool(n.text).Some? then Ok(y.readBool(n.text).value) else Err
  }

  function AsFloat(y: Scalars, n: Node): Result<float32> {
    if n.Scalar? && y.readFloat(n.text).Some? then Ok(y.readFloat(n.text).value) else Err
  }

  /** Converts the items one by one, up to the first that does not convert. */
  function ReadAll<T>(read: Node -> Result<T>, items: seq<Node>): Result<seq<T>> {
    if items == [] then Ok([]) else
    var first :- read(items[0]);
    var rest :- ReadAll(read, items[1..]);
    Ok([first] + rest)
  }

  function AsStrings(y: Scalars, n: Node): Result<seq<string>> {
    if n.Sequence? then ReadAll(item => AsString(y, item), n.items) else Err
  }

  // `if (node[key]) field = node[key].as<T>();` for each scalar type T.

  function StrAt(y: Scalars, n: Node, k: Key, before: string): Result<string> {
    match Field(n, k) case None => Ok(before) case Some(v) => AsString(y, v)
  }

  function U64At(y: Scalars, n: Node, k: Key, before: uint64): Result<uint64> {
    match Field(n, k) case None => Ok(before) case Some(v) =>
      var i :- AsInt(y, v, 0, 0x1_0000_0000_0000_0000); Ok(i)
  }

  function U32At(y: Scalars, n: Node, k: Key, before: uint32): Result<uint32> {
    match Field(n, k) case None => Ok(before) case Some(v) =>
      var i :- AsInt(y, v, 0, 0x1_0000_0000); Ok(i)
  }

  function I32At(y: Scalars, n: Node, k: Key, before: int32): Result<int32> {
    match Field(n, k) case None => Ok(before) case Some(v) =>
      var i :- AsInt(y, v, -0x8000_0000, 0x8000_0000); Ok(i)
  }

  function BoolAt(y: Scalars, n: Node, k: Key, before: bool): Result<bool> {
    match Field(n, k) case None => Ok(before) case Some(v) => AsBool(y, v)
  }

  function FloatAt(y: Scalars, n: Node, k: Key, before: float32): Result<float32> {
    match Field(n, k) case None => Ok(before) case Some(v) => AsFloat(y, v)
  }

  function StrsAt(y: Scalars, n: Node, k: Key, before: seq<string>): Result<seq<string>> {
    match Field(n, k) case None => Ok(before) case Some(v) => AsStrings(y, v)
  }

  lemma {:induction false} ReadAllBack<T>(read: Node -> Result<T>, items: seq<Node>, values: seq<T>)
    requires |items| == |values|
    requires forall i :: 0 <= i < |items| ==> read(items[i]) == Ok(values[i])
    ensures ReadAll(read, items) == Ok(values)
  {
    if items != [] {
      ReadAllBack(read, items[1..], values[1..]);
      assert [values[0]] + values[1..] == values;
    }
  }

  /** Each value came from one item. */
  lemma {:induction false} ReadAllFrom<T>(read: Node -> Result<T>, items: seq<Node>)
    requires ReadAll(read, items).Ok?
    ensures
      var values := ReadAll(read, items).value;
      && |values| == |items|
      && forall i :: 0 <= i < |items| ==> read(items[i]) == Ok(values[i])
  {
    if items != [] { ReadAllFrom(read, items[1..]); }
  }

  lemma StringsBack(y: Scalars, s: seq<string>)
    ensures AsStrings(y, FromStrings(s)) == Ok(s)
  {
    ReadAllBack(item => AsString(y, item), FromStrings(s).items, s);
  }
}
