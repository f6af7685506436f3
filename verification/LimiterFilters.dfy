/** The rate limiter and the two filters that ask it
    (polarismesh_limiter.cc, polarismesh_limiter_server_filter.cc,
    polarismesh_limiter_client_filter.cc). */
module LimiterFilters {
  import opened Prelude

  datatype LimitRet = LimitOK | LimitReject | LimitError

  /** The SDK's answer to GetQuota: a failed call, or one of its result codes. */
  datatype Quota = QuotaFailed | QuotaOk | QuotaLimited

  datatype Labels = Labels(methodName: string, caller: string)

  datatype LimitInfo = LimitInfo(service: string, namespace: string, labels: Labels)

  /** PolarisMeshLimiter::ShouldLimit, with the SDK's answer. */
  function ShouldLimit(init: bool, i: LimitInfo, q: Quota): LimitRet {
    if !init then LimitError
    else if i.service == "" || i.namespace == "" then LimitError
    else match q
         case QuotaFailed => LimitError
         case QuotaOk => LimitOK
         case QuotaLimited => LimitReject
  }

  /** The same with the request handed to the SDK: None when it fails before that. */
  method AskLimiter(init: bool, i: LimitInfo, q: Quota) returns (ret: LimitRet, asked: Option<LimitInfo>)
    ensures ret == ShouldLimit(init, i, q)
    ensures asked == if init && i.service != "" && i.namespace != "" then Some(i) else None
    ensures ret == LimitOK <==> asked.Some? && q == QuotaOk
    ensures ret == LimitReject <==> asked.Some? && q == QuotaLimited
  {
    if !init {
      return LimitError, None;
    }
    if i.service == "" || i.namespace == "" {
      return LimitError, None;
    }
    asked := Some(i);
    if q == QuotaFailed {
      return LimitError, asked;
    }
    ret := if q == QuotaOk then LimitOK else LimitReject;
  }

  // ---- The server's method label ----

  function Segment(s: string): string {
    if s == "" || s[|s| - 1] == '/' then "" else Segment(s[..|s| - 1]) + [s[|s| - 1]]
  }

  /** The part after the last slash, found from the back. */
  method LastSegment(s: string) returns (r: string)
    ensures r == Segment(s)
  {
    var i := |s|;
    assert s[..i] == s;
    r := "";
    while i > 0 && s[i - 1] != '/'
      invariant 0 <= i <= |s|
      invariant Segment(s) == Segment(s[..i]) + r
    {
      assert s[..i][..i - 1] == s[..i - 1];
      r := [s[i - 1]] + r;
      i := i - 1;
    }
  }

  predicate IsSuffix(r: string, s: string) {
    |r| <= |s| && s[|s| - |r|..] == r
  }

  lemma {:induction false} SegmentEndsAtSlash(s: string)
    ensures IsSuffix(Segment(s), s) && '/' !in Segment(s)
    ensures |Segment(s)| < |s| ==> s[|s| - |Segment(s)| - 1] == '/'
  {
    if s != "" && s[|s| - 1] != '/' {
      SegmentEndsAtSlash(s[..|s| - 1]);
    }
  }

  /** It is the longest suffix without a slash. */
  lemma SegmentIsLongest(s: string, t: string)
    ensures IsSuffix(Segment(s), s) && '/' !in Segment(s)
    ensures IsSuffix(t, s) && '/' !in t ==> IsSuffix(t, Segment(s))
    ensures Segment(s) == s <==> '/' !in s
  {
    SegmentEndsAtSlash(s);
    var r := Segment(s);
    if IsSuffix(t, s) && |r| < |t| {
      assert t[|t| - |r| - 1] == s[|s| - |r| - 1];
    }
    if IsSuffix(t, s) && |t| <= |r| {
      assert r[|r| - |t|..] == s[|s| - |r|..][|r| - |t|..] == t;
    }
  }

  // ---- The filters ----

  datatype Side = Server | Client

  datatype Point = PreInvoke | PostInvoke | OtherPoint

  /** What a filter reads from its call's context: for the server the service name
      and the global namespace, for the client the target and its namespace. */
  datatype Call = Call(service: string, namespace: string, func: string, caller: string)

  datatype Report = Report(info: LimitInfo, ret: LimitRet)

  function Asked(side: Side, c: Call): LimitInfo {
    LimitInfo(c.service, c.namespace, Labels(if side == Server then Segment(c.func) else c.func, c.caller))
  }

  function Reported(c: Call, ret: LimitRet): Report {
    Report(LimitInfo(c.service, c.namespace, Labels(c.func, c.caller)), ret)
  }

  /** One invocation of a filter, with the limiter's state and the SDK's answer. */
  datatype Event = Event(point: Point, call: Call, limiterInit: bool, quota: Quota)

  function Decision(side: Side, e: Event): LimitRet {
    ShouldLimit(e.limiterInit, Asked(side, e.call), e.quota)
  }

  predicate Rejects(side: Side, e: Event) {
    e.point == PreInvoke && Decision(side, e) == LimitReject
  }

  function NewReports(side: Side, update: bool, e: Event): seq<Report> {
    if !update then []
    else if Rejects(side, e) then [Reported(e.call, LimitReject)]
    else if e.point == PostInvoke then [Reported(e.call, LimitOK)]
    else []
  }

  class LimiterFilter {
    const side: Side
    const updateCallResult: bool
    var reports: seq<Report>

    constructor (side: Side, updateCallResult: bool)
      ensures this.side == side && this.updateCallResult == updateCallResult && reports == []
    {
      this.side, this.updateCallResult, reports := side, updateCallResult, [];
    }

    method FinishLimit(c: Call, ret: LimitRet)
      modifies this
      ensures reports == old(reports) + if updateCallResult then [Reported(c, ret)] else []
    {
      if !updateCallResult {
        return;
      }
      reports := reports + [Reported(c, ret)];
    }

    /** `operator()`: true for CONTINUE, false for REJECT; on a rejection the call's
        status becomes the side's limited error. `asked` is the question put to the
        SDK. The limiter fails open: a call is stopped exactly when an initialised
        limiter got a limiting answer for a named service. */
    method Invoke(e: Event) returns (proceed: bool, limitedError: bool, asked: Option<LimitInfo>)
      modifies this
      ensures reports == old(reports) + NewReports(side, updateCallResult, e)
      ensures limitedError <==>
        && e.point == PreInvoke && e.limiterInit && e.call.service != "" && e.call.namespace != ""
        && e.quota == QuotaLimited
      ensures proceed <==> !limitedError
      ensures reports == old(reports)
                + var c := e.call;
                  var info := LimitInfo(c.service, c.namespace, Labels(c.func, c.caller));
                  if updateCallResult && limitedError then [Report(info, LimitReject)]
                  else if updateCallResult && e.point == PostInvoke then [Report(info, LimitOK)]
                  else []
      ensures asked.Some? <==>
        e.point == PreInvoke && e.limiterInit && e.call.service != "" && e.call.namespace != ""
      ensures asked.Some? ==>
        && asked.value.service == e.call.service && asked.value.namespace == e.call.namespace
        && asked.value.labels.caller == e.call.caller
        && asked.value.labels.methodName == if side == Server then Segment(e.call.func) else e.call.func
    {
      limitedError, asked := false, None;
      if e.point == PreInvoke {
        var methodName := e.call.func;
        if side == Server {
          methodName := LastSegment(e.call.func);
        }
        var info := LimitInfo(e.call.service, e.call.namespace, Labels(methodName, e.call.caller));
        var ret;
        ret, asked := AskLimiter(e.limiterInit, info, e.quota);
        if ret == LimitReject {
          limitedError := true;
          FinishLimit(e.call, ret);
          return false, limitedError, asked;
        }
      } else if e.point == PostInvoke {
        FinishLimit(e.call, LimitOK);
      }
      proceed := true;
    }
  }

  /** The reports of a whole run. */
  function Reports(side: Side, update: bool, es: seq<Event>): seq<Report> {
    if es == [] then [] else Reports(side, update, es[..|es| - 1]) + NewReports(side, update, es[|es| - 1])
  }

  function CountRet(rs: seq<Report>, ret: LimitRet): nat {
    if rs == [] then 0
    else CountRet(rs[..|rs| - 1], ret) + if rs[|rs| - 1].ret == ret then 1 else 0
  }

  /** The calls that an initialised limiter was told to limit. */
  function CountLimited(es: seq<Event>): nat {
    if es == [] then 0 else
    var e := es[|es| - 1];
    var limited := e.point == PreInvoke && e.limiterInit && e.call.service != "" && e.call.namespace != ""
                   && e.quota == QuotaLimited;
    CountLimited(es[..|es| - 1]) + if limited then 1 else 0
  }

  function CountPosts(es: seq<Event>): nat {
    if es == [] then 0
    else CountPosts(es[..|es| - 1]) + if es[|es| - 1].point == PostInvoke then 1 else 0
  }

  /** With reporting on, a run reports every limited call and every finished call once
      and never an error; with reporting off it reports nothing. */
  lemma {:induction false} ReportsAreExact(side: Side, update: bool, es: seq<Event>)
    ensures
      var rs := Reports(side, update, es);
      if update then
        && CountRet(rs, LimitReject) == CountLimited(es)
        && CountRet(rs, LimitOK) == CountPosts(es)
        && CountRet(rs, LimitError) == 0
        && |rs| == CountLimited(es) + CountPosts(es)
      else rs == []
  {
    if es != [] {
      var n := |es| - 1;
      ReportsAreExact(side, update, es[..n]);
      var before, more := Reports(side, update, es[..n]), NewReports(side, update, es[n]);
      if more == [] {
        assert before + more == before;
      } else {
        assert (before + more)[..|before + more| - 1] == before;
      }
    }
  }

  /** The invocations that report: rejections and finished calls. */
  predicate Reporting(side: Side, e: Event) {
    Rejects(side, e) || e.point == PostInvoke
  }

  /** Where they are in a run. */
  function ReportingAt(side: Side, es: seq<Event>): seq<nat> {
    if es == [] then []
    else ReportingAt(side, es[..|es| - 1]) + if Reporting(side, es[|es| - 1]) then [|es| - 1] else []
  }

  /** `at` are the places of the reporting invocations, in order. */
  ghost predicate Places(side: Side, es: seq<Event>, at: seq<nat>) {
    && (forall i, j :: 0 <= i < j < |at| ==> at[i] < at[j])
    && (forall i :: 0 <= i < |es| ==> (i in at <==> Reporting(side, es[i])))
    && (forall j :: 0 <= j < |at| ==> at[j] < |es|)
  }

  lemma OneMorePlace(side: Side, before: seq<Event>, e: Event, at: seq<nat>)
    requires Places(side, before, at)
    ensures Places(side, before + [e], at + if Reporting(side, e) then [|before|] else [])
  {
  }

  lemma {:induction false} ReportingAtPlaces(side: Side, es: seq<Event>)
    ensures Places(side, es, ReportingAt(side, es))
  {
    if es != [] {
      var before, e := es[..|es| - 1], es[|es| - 1];
      ReportingAtPlaces(side, before);
      OneMorePlace(side, before, e, ReportingAt(side, before));
      assert before + [e] == es;
    }
  }

  function ResultOf(side: Side, e: Event): LimitRet {
    if Rejects(side, e) then LimitReject else LimitOK
  }

  /** Which call each report is about: the reports of a run are, in order, those of
      its rejections and finished calls, each with its own call and result. */
  lemma {:induction false} ReportsInOrder(side: Side, es: seq<Event>)
    ensures
      var rs, at := Reports(side, true, es), ReportingAt(side, es);
      && Places(side, es, at) && |rs| == |at|
      && forall j :: 0 <= j < |at| ==> rs[j] == Reported(es[at[j]].call, ResultOf(side, es[at[j]]))
  {
    ReportingAtPlaces(side, es);
    if es != [] {
      var n := |es| - 1;
      ReportsInOrder(side, es[..n]);
    }
  }

  /** A call is reported under the label it was limited by on the client always, on
      the server exactly when its function name has no slash. */
  lemma SameLabelIff(side: Side, c: Call, ret: LimitRet)
    ensures Reported(c, ret).info == Asked(side, c) <==> side == Client || '/' !in c.func
  {
    SegmentIsLongest(c.func, "");
  }

  /** The documented method label, the last segment of the function name, is what
      the server asks with always, and the client exactly when there is no slash. */
  lemma DocumentedLabelIff(side: Side, c: Call)
    ensures Asked(side, c).labels.methodName == Segment(c.func) <==> side == Server || '/' !in c.func
  {
    SegmentIsLongest(c.func, "");
  }

  /** A call of the usual form: the server asks under another label than the client,
      and than it reports itself. */
  lemma LabelsOfOneCall(ret: LimitRet)
    ensures
      var c := Call("service", "Test", "/demo/Hi", "caller");
      && Asked(Server, c).labels.methodName == "Hi"
      && Asked(Client, c).labels.methodName == "/demo/Hi"
      && Reported(c, ret).info.labels.methodName == "/demo/Hi"
  {
    var func := "/demo/Hi";
    assert func[..7] == "/demo/H" && func[..6] == func[..7][..6] == "/demo/";
    assert Segment("/demo/") == "";
    assert Segment("/demo/H") == "H";
  }
}
