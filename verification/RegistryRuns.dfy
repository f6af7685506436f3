/** Whole runs of Register and Unregister on one info, next to other processes
    that use the same provider. The info may come with an instance id of the
    caller's choice. */
module RegistryRuns {
  import opened Prelude
  import opened RegistryConf
  import opened RegistryCalls

  /** The caller's info, the registered instances, and every id ever given out. */
  datatype World = World(info: Info, live: Provider, used: set<string>)

  function IdOf(i: Info): string {
    StringOf(i.meta, "instance_id", "")
  }

  predicate Own(r: RegisterRequest, x: RegisterRequest) {
    SameEndpoint(x, r.key, r.host, r.port)
  }

  ghost predicate AtMostOneOwn(r: RegisterRequest, p: Provider) {
    forall x, y :: x in p && y in p && Own(r, p[x]) && Own(r, p[y]) ==> x == y
  }

  /** The instances at all other endpoints. */
  ghost function Others(r: RegisterRequest, p: Provider): Provider {
    map id | id in p && !Own(r, p[id]) :: p[id]
  }

  /** The info's id names a registered instance at another endpoint. */
  predicate NamesForeign(r: RegisterRequest, w: World) {
    IdOf(w.info) != "" && IdOf(w.info) in w.live && !Own(r, w.live[IdOf(w.info)])
  }

  // ---- The steps ----

  /** Our Register; a new instance gets an id that was never used before. */
  ghost predicate RegisterStep(c: Config, w: World, a: Answer, w': World) {
    && Registers(w.live, ToRegister(c, w.info), a, w'.live)
    && (a.code == ReturnOk ==> a.id !in w.used)
    && w'.used == (if Accepted(a) then w.used + {a.id} else w.used)
    && w'.info == Registered(w.info, a)
  }

  /** Our Unregister, with the code the provider answers. */
  ghost predicate UnregisterStep(c: Config, w: World, code: ReturnCode, w': World) {
    && Deregisters(w.live, ToDeregister(c, w.info), code, w'.live)
    && w'.used == w.used && w'.info == w.info
  }

  /** Anyone else: instances come and go, ours may expire too, but nobody else
      registers our endpoint and no id is given out twice. */
  ghost predicate OtherStep(c: Config, w: World, w': World) {
    && w'.info == w.info && w.used <= w'.used && w'.live.Keys <= w'.used
    && forall id :: id in w'.live ==>
         (id in w.live && w'.live[id] == w.live[id])
         || (id !in w.used && !Own(ToRegister(c, w.info), w'.live[id]))
  }

  ghost predicate OurStep(c: Config, w: World, w': World) {
    (exists a :: RegisterStep(c, w, a, w')) || (exists code :: UnregisterStep(c, w, code, w'))
  }

  ghost predicate AcceptedStep(c: Config, w: World, w': World) {
    exists a :: RegisterStep(c, w, a, w') && Accepted(a)
  }

  ghost predicate StepAt(c: Config, ws: seq<World>, k: nat)
    requires k + 1 < |ws|
  {
    OurStep(c, ws[k], ws[k + 1]) || OtherStep(c, ws[k], ws[k + 1])
  }

  ghost predicate Run(c: Config, ws: seq<World>) {
    forall k: nat :: k + 1 < |ws| ==> StepAt(c, ws, k)
  }

  /** At the start, and ever after: at most one instance is at the info's endpoint,
      perhaps left by an earlier process. The info may hold any id. */
  ghost predicate Base(c: Config, r: RegisterRequest, w: World) {
    ToRegister(c, w.info) == r && w.live.Keys <= w.used && AtMostOneOwn(r, w.live)
  }

  ghost predicate Starts(c: Config, w: World) {
    Base(c, ToRegister(c, w.info), w)
  }

  /** The id in the info can never come to name an instance elsewhere. */
  ghost predicate IdIsSafe(r: RegisterRequest, w: World) {
    IdOf(w.info) != "" ==> IdOf(w.info) in w.used && !NamesForeign(r, w)
  }

  /** The id in the info names the instance at the endpoint, if there is one. */
  ghost predicate IdFinds(r: RegisterRequest, w: World) {
    IdOf(w.info) != "" ==> forall x :: x in w.live && Own(r, w.live[x]) ==> x == IdOf(w.info)
  }

  /** Some Register in the first `k` steps was accepted. */
  ghost predicate AcceptedBefore(c: Config, ws: seq<World>, k: nat)
    requires k < |ws|
  {
    k > 0 && (AcceptedBefore(c, ws, k - 1) || AcceptedStep(c, ws[k - 1], ws[k]))
  }

  // ---- One step ----

  lemma RegisterKeeps(c: Config, r: RegisterRequest, w: World, a: Answer, w': World)
    requires Base(c, r, w) && RegisterStep(c, w, a, w')
    ensures Base(c, r, w') && Others(r, w'.live) == Others(r, w.live)
    ensures Accepted(a) ==> IdIsSafe(r, w') && IdFinds(r, w')
    ensures !Accepted(a) ==> w' == w
  {
    if Accepted(a) {
      WriteBackIsInvisible(c, w.info, a.id);
      assert IdOf(w'.info) == a.id;
      assert Own(r, w'.live[a.id]);
    }
  }

  /** Which instance a successful Unregister removes. */
  lemma UnregisterRemoves(c: Config, i: Info, p: Provider, p': Provider) returns (id: string)
    requires Deregisters(p, ToDeregister(c, i), ReturnOk, p')
    ensures id in p && p' == p - {id}
    ensures if IdOf(i) == "" then Own(ToRegister(c, i), p[id]) else id == IdOf(i)
  {
    assert Setup(c, i).instanceId == IdOf(i);
    id :| id in Names(p, ToDeregister(c, i)) && p' == p - {id};
  }

  /** Exactly when a successful Unregister leaves the instances at all other
      endpoints alone: the info has no id, or one that names an instance at its own
      endpoint. An id of the caller's choice decides alone what is removed. */
  lemma UnregisterSparesOthersIff(c: Config, i: Info, p: Provider, p': Provider)
    requires Deregisters(p, ToDeregister(c, i), ReturnOk, p')
    ensures
      var r, id := ToRegister(c, i), IdOf(i);
      Others(r, p') == Others(r, p) <==> id == "" || (id in p && Own(r, p[id]))
  {
    var r := ToRegister(c, i);
    var id := UnregisterRemoves(c, i, p, p');
    if !Own(r, p[id]) {
      assert id in Others(r, p) && id !in Others(r, p');
    }
  }

  lemma UnregisterKeeps(c: Config, r: RegisterRequest, w: World, code: ReturnCode, w': World)
    requires Base(c, r, w) && UnregisterStep(c, w, code, w')
    ensures Base(c, r, w') && (IdIsSafe(r, w) ==> IdIsSafe(r, w')) && (IdFinds(r, w) ==> IdFinds(r, w'))
    ensures Others(r, w'.live) == Others(r, w.live) <==> !(code == ReturnOk && NamesForeign(r, w))
    ensures
      code == ReturnOk ==>
        (Vacant(w'.live, r.key, r.host, r.port)
         <==> (NamesForeign(r, w) ==> Vacant(w.live, r.key, r.host, r.port)))
  {
    if code == ReturnOk {
      UnregisterSparesOthersIff(c, w.info, w.live, w'.live);
      var id := UnregisterRemoves(c, w.info, w.live, w'.live);
      if Own(r, w.live[id]) {
        assert Vacant(w'.live, r.key, r.host, r.port);
      } else {
        assert forall x :: x in w.live && Own(r, w.live[x]) ==> x in w'.live;
      }
    }
  }

  lemma OtherKeeps(c: Config, r: RegisterRequest, w: World, w': World)
    requires Base(c, r, w) && OtherStep(c, w, w')
    ensures Base(c, r, w') && (IdIsSafe(r, w) ==> IdIsSafe(r, w')) && (IdFinds(r, w) ==> IdFinds(r, w'))
  {
  }

  // ---- Runs ----

  lemma StepKeeps(c: Config, r: RegisterRequest, w: World, w': World)
    requires Base(c, r, w) && (OurStep(c, w, w') || OtherStep(c, w, w'))
    ensures Base(c, r, w')
    ensures IdIsSafe(r, w) || AcceptedStep(c, w, w') ==> IdIsSafe(r, w')
    ensures IdFinds(r, w) || AcceptedStep(c, w, w') ==> IdFinds(r, w')
    ensures AcceptedStep(c, w, w') || w'.info == w.info
  {
    if AcceptedStep(c, w, w') {
      var a :| RegisterStep(c, w, a, w') && Accepted(a);
      RegisterKeeps(c, r, w, a, w');
    } else if OtherStep(c, w, w') {
      OtherKeeps(c, r, w, w');
    } else if a :| RegisterStep(c, w, a, w') {
      RegisterKeeps(c, r, w, a, w');
    } else {
      var code :| UnregisterStep(c, w, code, w');
      UnregisterKeeps(c, r, w, code, w');
    }
  }

  /** What a run from `w0` keeps: every Register request is the first one; from the
      first accepted Register on, or from the start if the caller's id is none or a
      right one, the id in the info names our instance and nothing else; before that
      the caller's info is as it was. */
  ghost predicate RunInv(c: Config, r: RegisterRequest, w0: World, w: World, accepted: bool) {
    && Base(c, r, w)
    && (IdIsSafe(r, w0) || accepted ==> IdIsSafe(r, w))
    && (IdFinds(r, w0) || accepted ==> IdFinds(r, w))
    && (accepted || w.info == w0.info)
  }

  lemma StepKeepsRunInv(c: Config, r: RegisterRequest, w0: World, w: World, accepted: bool, w': World)
    requires RunInv(c, r, w0, w, accepted) && (OurStep(c, w, w') || OtherStep(c, w, w'))
    ensures RunInv(c, r, w0, w', accepted || AcceptedStep(c, w, w'))
  {
    StepKeeps(c, r, w, w');
  }

  lemma OneMoreStep(c: Config, r: RegisterRequest, ws: seq<World>, k: nat)
    requires k + 1 < |ws| && Run(c, ws) && RunInv(c, r, ws[0], ws[k], AcceptedBefore(c, ws, k))
    ensures RunInv(c, r, ws[0], ws[k + 1], AcceptedBefore(c, ws, k + 1))
  {
    assert StepAt(c, ws, k);
    StepKeepsRunInv(c, r, ws[0], ws[k], AcceptedBefore(c, ws, k), ws[k + 1]);
  }

  lemma {:induction false} RunKeepsInv(c: Config, r: RegisterRequest, ws: seq<World>, k: nat)
    requires k < |ws| && Base(c, r, ws[0]) && Run(c, ws)
    ensures RunInv(c, r, ws[0], ws[k], AcceptedBefore(c, ws, k))
  {
    if k > 0 {
      RunKeepsInv(c, r, ws, k - 1);
      OneMoreStep(c, r, ws, k - 1);
    }
  }

  /** A Register or Unregister leaves the instances at all other endpoints alone
      exactly unless it is a successful Unregister by an id that names one of them;
      and that cannot happen after an accepted Register, nor with an id that was
      none or a right one at the start. */
  lemma OnlyOwnEndpoint(c: Config, ws: seq<World>, k: nat)
    requires k + 1 < |ws| && Starts(c, ws[0]) && Run(c, ws) && OurStep(c, ws[k], ws[k + 1])
    ensures
      var r := ToRegister(c, ws[0].info);
      && (Others(r, ws[k + 1].live) == Others(r, ws[k].live)
          <==> !(UnregisterStep(c, ws[k], ReturnOk, ws[k + 1]) && NamesForeign(r, ws[k])))
      && (IdIsSafe(r, ws[0]) || AcceptedBefore(c, ws, k) ==> !NamesForeign(r, ws[k]))
  {
    var r, w, w' := ToRegister(c, ws[0].info), ws[k], ws[k + 1];
    RunKeepsInv(c, r, ws, k);
    if UnregisterStep(c, w, ReturnOk, w') {
      UnregisterKeeps(c, r, w, ReturnOk, w');
    } else if a :| RegisterStep(c, w, a, w') {
      RegisterKeeps(c, r, w, a, w');
    } else {
      var code :| UnregisterStep(c, w, code, w');
      UnregisterKeeps(c, r, w, code, w');
    }
  }

  /** After a successful Unregister nothing is registered at the info's endpoint,
      unless its id named an instance elsewhere and ours is there still. */
  lemma UnregisterClearsEndpoint(c: Config, ws: seq<World>, k: nat)
    requires k + 1 < |ws| && Starts(c, ws[0]) && Run(c, ws) && UnregisterStep(c, ws[k], ReturnOk, ws[k + 1])
    ensures
      var r := ToRegister(c, ws[0].info);
      && (Vacant(ws[k + 1].live, r.key, r.host, r.port)
          <==> (NamesForeign(r, ws[k]) ==> Vacant(ws[k].live, r.key, r.host, r.port)))
      && (IdIsSafe(r, ws[0]) || AcceptedBefore(c, ws, k) ==> Vacant(ws[k + 1].live, r.key, r.host, r.port))
  {
    RunKeepsInv(c, ToRegister(c, ws[0].info), ws, k);
    UnregisterKeeps(c, ToRegister(c, ws[0].info), ws[k], ReturnOk, ws[k + 1]);
  }

  /** The smallest run that removes somebody else's instance: an Unregister whose
      info carries that instance's id. */
  lemma ForeignIdIsRemoved(c: Config)
    ensures
      var i := Info("service", "here", 80, map["instance_id" := "theirs"]);
      var r := ToRegister(c, i);
      var theirs := r.(host := "elsewhere");
      var ws := [World(i, map["theirs" := theirs], {"theirs"}), World(i, map[], {"theirs"})];
      && Starts(c, ws[0]) && Run(c, ws) && UnregisterStep(c, ws[0], ReturnOk, ws[1])
      && Others(r, ws[0].live) == map["theirs" := theirs] && Others(r, ws[1].live) == map[]
  {
    var i := Info("service", "here", 80, map["instance_id" := "theirs"]);
    var r := ToRegister(c, i);
    var before := map["theirs" := r.(host := "elsewhere")];
    assert before - {"theirs"} == map[];
    assert "theirs" in Names(before, ToDeregister(c, i));
    var w, w' := World(i, before, {"theirs"}), World(i, map[], {"theirs"});
    assert UnregisterStep(c, w, ReturnOk, w');
    assert !Own(r, before["theirs"]);
  }
}
