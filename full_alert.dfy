/**
 * `handle_alert` of sabadoDies.py: after the shared validation ladder it picks
 * the members to notify (opted in, not the reporter), sends each of them a
 * private message followed, when calls are configured and the member has a
 * phone, by a voice call, and finally sends one message to the community
 * group. Every send is an attempt on an abstract channel whose success is an
 * input; no outcome changes what happens next or what the caller is told.
 */
module FullAlert {
  import opened Wrappers
  import opened PyValues
  import opened Directory

  const LinkPrefix := "https://maps.google.com/?q="
  const AlertSent := "Alerta enviada."

  datatype Channel = PrivateChat | GroupChat | VoiceCall

  /** What every message of one alert is built from. `community` is the name as
      submitted; the chat messages show it upper-cased, the voice call as is. */
  datatype Facts = Facts(
    kind: string, community: string, reporterId: string, reporterName: string,
    description: string, mapLink: string, address: string)

  /** The structural content of the three kinds of message. */
  datatype Notice =
    | PrivateNotice(kind: string, community: string, reporterId: string, reporterName: string,
                    description: string, mapLink: string, address: string, memberName: string)
    | GroupNotice(community: string, reporterId: string, reporterName: string,
                  description: string, mapLink: string, address: string)
    | VoiceNotice(reporterName: string, community: string, description: string, address: string)

  /** One outbound send: its channel, the raw target value and the message. */
  datatype Send = Send(channel: Channel, target: Val, notice: Notice)

  /** A send together with whether the channel delivered it. */
  datatype Attempt = Attempt(send: Send, delivered: bool)

  function FactsOf(sub: Submission, r: Resolved): Facts {
    Facts(Kind(sub), r.name, Str(ReporterId(sub)), ReporterName(sub), Description(sub),
          MapLink(LinkPrefix, Lat(sub), Lon(sub)), Address(sub))
  }

  /** `m.get('alertas_activadas') and str(m.get('telegram_id')) != str(user_id)` */
  predicate Notifiable(m: Fields, reporter: Val) {
    AlertsOn(m) && Str(Get(m, "telegram_id", PyNone)) != Str(reporter)
  }

  /** `miembros_a_notificar`: the comprehension over the member list. */
  function Recipients(ms: seq<Fields>, reporter: Val): seq<Fields> {
    if ms == [] then []
    else (if Notifiable(ms[0], reporter) then [ms[0]] else []) + Recipients(ms[1..], reporter)
  }

  function PrivateSend(m: Fields, f: Facts): Send {
    Send(PrivateChat, Get(m, "telegram_id", PyNone),
         PrivateNotice(f.kind, Upper(f.community), f.reporterId, f.reporterName, f.description,
                       f.mapLink, f.address, Str(Get(m, "nombre", PyStr("miembro")))))
  }

  function CallSend(m: Fields, f: Facts): Send {
    Send(VoiceCall, Get(m, "telefono", PyNone),
         VoiceNotice(f.reporterName, f.community, f.description, f.address))
  }

  function GroupSend(chatId: Val, f: Facts): Send {
    Send(GroupChat, chatId,
         GroupNotice(Upper(f.community), f.reporterId, f.reporterName, f.description,
                     f.mapLink, f.address))
  }

  /** A call is placed when Twilio is configured (client and caller number) and the
      member's `telefono` is truthy. */
  predicate Callable(m: Fields, callsEnabled: bool) {
    callsEnabled && Truthy(Get(m, "telefono", PyNone))
  }

  /** The sends of one iteration of the recipient loop. */
  function MemberSends(m: Fields, f: Facts, callsEnabled: bool): seq<Send> {
    [PrivateSend(m, f)] + (if Callable(m, callsEnabled) then [CallSend(m, f)] else [])
  }

  /** The sends of the whole recipient loop, in order. */
  function MembersPlan(rs: seq<Fields>, f: Facts, callsEnabled: bool): seq<Send> {
    if rs == [] then []
    else MembersPlan(rs[..|rs| - 1], f, callsEnabled) + MemberSends(rs[|rs| - 1], f, callsEnabled)
  }

  /** Every send `handle_alert` makes for a submission, in order. */
  function AlertPlan(sub: Submission, store: Store, callsEnabled: bool): seq<Send> {
    match Resolve(sub, store)
    case Err(_) => []
    case Ok(r) =>
      var f := FactsOf(sub, r);
      MembersPlan(Recipients(r.members, ReporterId(sub)), f, callsEnabled) + [GroupSend(r.chatId, f)]
  }

  /** What `handle_alert` returns. It takes no delivery outcome. */
  function AlertResponse(sub: Submission, store: Store): Response {
    match Resolve(sub, store)
    case Err(e) => e
    case Ok(_) => Response(200, Status(AlertSent))
  }

  /** The plan as carried out, attempt `i` succeeding exactly when `delivered(i)`. */
  function Attempted(plan: seq<Send>, delivered: nat -> bool): (t: seq<Attempt>)
    ensures |t| == |plan|
  {
    seq(|plan|, i requires 0 <= i < |plan| => Attempt(plan[i], delivered(i)))
  }

  lemma AttemptedSnoc(plan: seq<Send>, s: Send, delivered: nat -> bool)
    ensures Attempted(plan + [s], delivered) == Attempted(plan, delivered) + [Attempt(s, delivered(|plan|))]
  {
  }

  /** `handle_alert` (sabadoDies.py): validation, then the recipient loop, then the
      group message. The trace lists every attempted send with its outcome. */
  method HandleAlert(sub: Submission, store: Store, callsEnabled: bool, delivered: nat -> bool)
    returns (resp: Response, trace: seq<Attempt>)
    ensures resp == AlertResponse(sub, store)
    ensures trace == Attempted(AlertPlan(sub, store, callsEnabled), delivered)
  {
    var v := Resolve(sub, store);
    if v.Err? {
      return v.error, [];
    }
    var r := v.value;
    var f := FactsOf(sub, r);
    var recipients := Recipients(r.members, ReporterId(sub));
    trace := [];
    for i := 0 to |recipients|
      invariant trace == Attempted(MembersPlan(recipients[..i], f, callsEnabled), delivered)
    {
      var m := recipients[i];
      ghost var done := MembersPlan(recipients[..i], f, callsEnabled);
      AttemptedSnoc(done, PrivateSend(m, f), delivered);
      trace := trace + [Attempt(PrivateSend(m, f), delivered(|trace|))];
      if callsEnabled {
        var phone := Get(m, "telefono", PyNone);
        if Truthy(phone) {
          AttemptedSnoc(done + [PrivateSend(m, f)], CallSend(m, f), delivered);
          trace := trace + [Attempt(CallSend(m, f), delivered(|trace|))];
        }
      }
      assert recipients[..i + 1][..i] == recipients[..i];
    }
    assert recipients[..|recipients|] == recipients;
    AttemptedSnoc(MembersPlan(recipients, f, callsEnabled), GroupSend(r.chatId, f), delivered);
    trace := trace + [Attempt(GroupSend(r.chatId, f), delivered(|trace|))];
    resp := Response(200, Status(AlertSent));
  }

  // ---------------------------------------------------------------- recipients

  /** The recipients are exactly the opted-in members whose id differs from the
      reporter's as a string, and no more than there are members. */
  lemma {:induction false} RecipientsExactly(ms: seq<Fields>, reporter: Val)
    ensures |Recipients(ms, reporter)| <= |ms|
    ensures forall m :: m in Recipients(ms, reporter) <==> m in ms && Notifiable(m, reporter)
  {
    if ms != [] {
      RecipientsExactly(ms[1..], reporter);
      assert ms == [ms[0]] + ms[1..];
    }
  }

  /** The filter keeps the listed order: it distributes over concatenation. */
  lemma {:induction false} RecipientsAppend(a: seq<Fields>, b: seq<Fields>, reporter: Val)
    ensures Recipients(a + b, reporter) == Recipients(a, reporter) + Recipients(b, reporter)
  {
    if a != [] {
      var ab := a + b;
      assert ab[0] == a[0] && ab[1..] == a[1..] + b;
      var h := if Notifiable(a[0], reporter) then [a[0]] else [];
      RecipientsAppend(a[1..], b, reporter);
      calc {
        Recipients(ab, reporter);
        h + Recipients(a[1..] + b, reporter);
        h + (Recipients(a[1..], reporter) + Recipients(b, reporter));
        (h + Recipients(a[1..], reporter)) + Recipients(b, reporter);
        Recipients(a, reporter) + Recipients(b, reporter);
      }
    } else {
      assert a + b == b;
    }
  }

  /** Comparing as strings makes an integer id and its decimal text the same
      reporter: a member stored with `telegram_id` 111 is not notified of an
      alert raised by id "111". */
  lemma ReporterMatchedAcrossTypes(m: Fields, n: int)
    requires "telegram_id" in m && m["telegram_id"] == PyInt(n)
    ensures !Notifiable(m, PyStr(IntToDecimal(n)))
    ensures !Notifiable(m, PyInt(n))
  {
  }

  // ---------------------------------------------------------------- the plan

  /** Targets of the sends on one channel, in order. */
  function Targets(plan: seq<Send>, ch: Channel): seq<Val> {
    if plan == [] then []
    else Targets(plan[..|plan| - 1], ch) + (if plan[|plan| - 1].channel == ch then [plan[|plan| - 1].target] else [])
  }

  lemma {:induction false} TargetsAppend(p: seq<Send>, q: seq<Send>, ch: Channel)
    ensures Targets(p + q, ch) == Targets(p, ch) + Targets(q, ch)
    decreases |q|
  {
    if q != [] {
      assert (p + q)[..|p + q| - 1] == p + q[..|q| - 1];
      TargetsAppend(p, q[..|q| - 1], ch);
    } else {
      assert p + q == p;
    }
  }

  /** `telegram_id` of each member, in order. */
  function Ids(rs: seq<Fields>): seq<Val> {
    seq(|rs|, i requires 0 <= i < |rs| => Get(rs[i], "telegram_id", PyNone))
  }

  /** `telefono` of each member that is called, in order. */
  function Phones(rs: seq<Fields>, callsEnabled: bool): seq<Val> {
    if rs == [] then []
    else
      var m := rs[|rs| - 1];
      Phones(rs[..|rs| - 1], callsEnabled) + (if Callable(m, callsEnabled) then [Get(m, "telefono", PyNone)] else [])
  }

  /** In the recipient loop each recipient, in order, gets exactly one private
      message; calls go, in the same order, to the recipients with a truthy phone
      when calls are enabled, and to nobody otherwise; no group message is sent. */
  lemma {:induction false} MembersPlanTargets(rs: seq<Fields>, f: Facts, callsEnabled: bool)
    ensures Targets(MembersPlan(rs, f, callsEnabled), PrivateChat) == Ids(rs)
    ensures Targets(MembersPlan(rs, f, callsEnabled), VoiceCall) == Phones(rs, callsEnabled)
    ensures Targets(MembersPlan(rs, f, callsEnabled), GroupChat) == []
    ensures !callsEnabled ==> Phones(rs, callsEnabled) == []
  {
    if rs != [] {
      var init, m := rs[..|rs| - 1], rs[|rs| - 1];
      MembersPlanTargets(init, f, callsEnabled);
      var done, sends := MembersPlan(init, f, callsEnabled), MemberSends(m, f, callsEnabled);
      assert MembersPlan(rs, f, callsEnabled) == done + sends;
      MemberSendsTargets(m, f, callsEnabled);
      TargetsAppend(done, sends, PrivateChat);
      TargetsAppend(done, sends, VoiceCall);
      TargetsAppend(done, sends, GroupChat);
      assert Ids(rs) == Ids(init) + [Get(m, "telegram_id", PyNone)];
    }
  }

  /** One iteration sends one private message to the member's id, then a call to
      its phone when it is callable, and nothing to the group. */
  lemma MemberSendsTargets(m: Fields, f: Facts, callsEnabled: bool)
    ensures Targets(MemberSends(m, f, callsEnabled), PrivateChat) == [Get(m, "telegram_id", PyNone)]
    ensures Targets(MemberSends(m, f, callsEnabled), VoiceCall) ==
      if Callable(m, callsEnabled) then [Get(m, "telefono", PyNone)] else []
    ensures Targets(MemberSends(m, f, callsEnabled), GroupChat) == []
  {
    var p := [PrivateSend(m, f)];
    assert Targets(p, PrivateChat) == [Get(m, "telegram_id", PyNone)] by {
      assert p[..0] == [];
    }
    assert Targets(p, VoiceCall) == [] && Targets(p, GroupChat) == [] by {
      assert p[..0] == [];
    }
    if Callable(m, callsEnabled) {
      var q := p + [CallSend(m, f)];
      assert q[..1] == p;
    } else {
      assert MemberSends(m, f, callsEnabled) == p;
    }
  }

  /** Every send of the recipient loop goes to a recipient: a private message to
      its `telegram_id` or a call to its `telefono`. */
  lemma {:induction false} MembersPlanSendsToRecipients(rs: seq<Fields>, f: Facts, callsEnabled: bool)
    ensures forall s :: s in MembersPlan(rs, f, callsEnabled) ==>
      exists m :: m in rs &&
        ((s.channel == PrivateChat && s.target == Get(m, "telegram_id", PyNone)) ||
         (s.channel == VoiceCall && s.target == Get(m, "telefono", PyNone)))
  {
    if rs != [] {
      var init, m := rs[..|rs| - 1], rs[|rs| - 1];
      MembersPlanSendsToRecipients(init, f, callsEnabled);
      assert forall x :: x in init ==> x in rs;
      assert m in rs;
    }
  }

  /** The reporter is never sent a private message: every private target differs
      from the reporter's id as a string. */
  lemma ReporterNeverPrivatelyNotified(sub: Submission, store: Store, callsEnabled: bool)
    ensures forall s :: s in AlertPlan(sub, store, callsEnabled) && s.channel == PrivateChat ==>
      Str(s.target) != Str(ReporterId(sub))
  {
    if Resolve(sub, store).Ok? {
      var r := Resolve(sub, store).value;
      var rs := Recipients(r.members, ReporterId(sub));
      RecipientsExactly(r.members, ReporterId(sub));
      MembersPlanSendsToRecipients(rs, FactsOf(sub, r), callsEnabled);
    }
  }

  /** A rejected submission sends nothing and returns the ladder's error; an
      accepted one always reports "Alerta enviada.". After the per-member sends,
      in recipient order, exactly one group message goes to the community's
      `chat_id`, as the last send. */
  lemma AlertPlanShape(sub: Submission, store: Store, callsEnabled: bool)
    ensures Resolve(sub, store).Err? ==>
      AlertPlan(sub, store, callsEnabled) == [] && AlertResponse(sub, store) == Resolve(sub, store).error
    ensures Resolve(sub, store).Ok? ==>
      var r := Resolve(sub, store).value;
      var plan := AlertPlan(sub, store, callsEnabled);
      var rs := Recipients(r.members, ReporterId(sub));
      AlertResponse(sub, store) == Response(200, Status(AlertSent)) &&
      plan != [] && plan[|plan| - 1] == GroupSend(r.chatId, FactsOf(sub, r)) &&
      Targets(plan, GroupChat) == [r.chatId] &&
      Targets(plan, PrivateChat) == Ids(rs) &&
      Targets(plan, VoiceCall) == Phones(rs, callsEnabled)
  {
    if Resolve(sub, store).Ok? {
      var r := Resolve(sub, store).value;
      AcceptedPlanTargets(Recipients(r.members, ReporterId(sub)), FactsOf(sub, r), r.chatId, callsEnabled);
    }
  }

  /** The targets of the recipient loop followed by the group message. */
  lemma AcceptedPlanTargets(rs: seq<Fields>, f: Facts, chatId: Val, callsEnabled: bool)
    ensures
      var plan := MembersPlan(rs, f, callsEnabled) + [GroupSend(chatId, f)];
      Targets(plan, GroupChat) == [chatId] &&
      Targets(plan, PrivateChat) == Ids(rs) &&
      Targets(plan, VoiceCall) == Phones(rs, callsEnabled)
  {
    var done, g := MembersPlan(rs, f, callsEnabled), [GroupSend(chatId, f)];
    MembersPlanTargets(rs, f, callsEnabled);
    assert g[..0] == [];
    TargetsAppend(done, g, GroupChat);
    TargetsAppend(done, g, PrivateChat);
    TargetsAppend(done, g, VoiceCall);
  }

  /** The map link of the group and private messages carries the submitted
      coordinates exactly when both are truthy. */
  lemma AlertMapLink(sub: Submission, r: Resolved)
    requires ',' !in Str(Lat(sub))
    ensures ParseMapLink(LinkPrefix, FactsOf(sub, r).mapLink) ==
      if Truthy(Lat(sub)) && Truthy(Lon(sub)) then Some((Str(Lat(sub)), Str(Lon(sub)))) else None
    ensures FactsOf(sub, r).mapLink == LocationUnavailable <==> !(Truthy(Lat(sub)) && Truthy(Lon(sub)))
  {
    assert |LocationUnavailable| < |LinkPrefix|;
    MapLinkRoundTrip(LinkPrefix, Lat(sub), Lon(sub));
  }

  /** A community "village" whose member A (id 111, opted in, phone "P1") raises
      the alert as "111" and whose member B (id 222) opted out: the lookup ignores
      the case of "Village", A is recognised as the reporter although their id is
      stored as an integer, B is skipped, and the only send is the group message. */
  lemma VillageScenario(callsEnabled: bool)
    ensures
      var a := map["telegram_id" := PyInt(111), "alertas_activadas" := PyBool(true), "telefono" := PyStr("P1")];
      var b := map["telegram_id" := PyInt(222), "alertas_activadas" := PyBool(false)];
      var rec := CommunityRecord(map["chat_id" := PyInt(-100)], Some([a, b]));
      var sub := Submission(map["comunidad" := PyStr("Village"), "descripcion" := PyStr("fire")],
                            map["id" := PyStr("111")], map[]);
      var store := map["village" := Parsed(rec)];
      AlertResponse(sub, store) == Response(200, Status(AlertSent)) &&
      AlertPlan(sub, store, callsEnabled) ==
        [GroupSend(PyInt(-100), FactsOf(sub, Resolved("Village", PyInt(-100), [a, b])))]
  {
    var a := map["telegram_id" := PyInt(111), "alertas_activadas" := PyBool(true), "telefono" := PyStr("P1")];
    var b := map["telegram_id" := PyInt(222), "alertas_activadas" := PyBool(false)];
    var rec := CommunityRecord(map["chat_id" := PyInt(-100)], Some([a, b]));
    var sub := Submission(map["comunidad" := PyStr("Village"), "descripcion" := PyStr("fire")],
                          map["id" := PyStr("111")], map[]);
    var store := map["village" := Parsed(rec)];
    VillageLookup();
    assert LoadCommunity(store, "Village") == Some(rec);
    assert Resolve(sub, store) == Ok(Resolved("Village", PyInt(-100), [a, b]));
    assert ReporterId(sub) == PyStr("111");
    VillageRecipients(a, b);
  }

  lemma VillageLookup()
    ensures Lower("Village") == "village"
  {
    var l := Lower("Village");
    assert l[0] == 'v' && l[1] == 'i' && l[2] == 'l' && l[3] == 'l' && l[4] == 'a' && l[5] == 'g' && l[6] == 'e';
  }

  /** The reporter A and the opted-out B are both skipped. */
  lemma VillageRecipients(a: Fields, b: Fields)
    requires a == map["telegram_id" := PyInt(111), "alertas_activadas" := PyBool(true), "telefono" := PyStr("P1")]
    requires b == map["telegram_id" := PyInt(222), "alertas_activadas" := PyBool(false)]
    ensures Recipients([a, b], PyStr("111")) == []
  {
    assert Str(PyInt(111)) == "111" by {
      assert NatToDecimal(1) == "1";
      assert NatToDecimal(11) == NatToDecimal(1) + [DigitChar(1)];
      assert NatToDecimal(111) == NatToDecimal(11) + [DigitChar(1)];
    }
    assert Get(a, "telegram_id", PyNone) == PyInt(111);
    assert !Notifiable(a, PyStr("111"));
    assert Get(b, "alertas_activadas", PyNone) == PyBool(false);
    assert !Notifiable(b, PyStr("111"));
    assert [a, b][1..] == [b];
    assert [b][1..] == [];
    assert Recipients([b], PyStr("111")) == [] + Recipients([], PyStr("111"));
  }
}
