/**
 * `handle_alert` of alarma/servidor.py: the same validation ladder as the full
 * variant, then one message to the community group that mentions every
 * opted-in member (the reporter included). It makes no private sends and no
 * calls, so the single send is part of the returned outcome.
 */
module SimpleAlert {
  import opened Wrappers
  import opened PyValues
  import opened Directory
  import FullAlert

  const LinkPrefix := "https://www.google.com/maps/search/?api=1&query="

  function SentTo(name: string): string {
    "Alerta enviada a la comunidad " + name
  }

  /** `miembros_alertados`: the members with a truthy `alertas_activadas`, in order. */
  function OptedIn(ms: seq<Fields>): seq<Fields> {
    if ms == [] then []
    else (if AlertsOn(ms[0]) then [ms[0]] else []) + OptedIn(ms[1..])
  }

  /** One entry of `menciones_miembros`. `nombre` has no default here, so a
      member without one is mentioned as "None". */
  function Mention(m: Fields): string {
    "<a href='tg://user?id=" + Str(Get(m, "telegram_id", PyNone)) + "'>" + Str(Get(m, "nombre", PyNone)) + "</a>"
  }

  function Mentions(ms: seq<Fields>): seq<string> {
    seq(|ms|, i requires 0 <= i < |ms| => Mention(ms[i]))
  }

  /** `sep.join(xs)` */
  function Join(sep: string, xs: seq<string>): string {
    if xs == [] then "" else if |xs| == 1 then xs[0] else xs[0] + sep + Join(sep, xs[1..])
  }

  /** `mensaje_alertas`: the mentions of the opted-in members, separated by single spaces. */
  function Notified(ms: seq<Fields>): string {
    Join(" ", Mentions(OptedIn(ms)))
  }

  /** The structural content of `mensaje_completo`, and its target. */
  datatype GroupReport = GroupReport(
    chatId: Val, kind: string, community: string, reporterId: string, reporterName: string,
    description: string, mapLink: string, address: string, notified: string)

  /** The response and the one send, if any. */
  datatype Outcome = Outcome(response: Response, sent: Option<GroupReport>)

  function HandleAlert(sub: Submission, store: Store): (o: Outcome)
    ensures o.sent.Some? <==> Resolve(sub, store).Ok?
    ensures o.sent.Some? ==>
      var r := Resolve(sub, store).value;
      o.response == Response(200, Status(SentTo(r.name))) && o.sent.value.chatId == r.chatId
      && o.sent.value.notified == Notified(r.members) && o.sent.value.community == Upper(r.name)
    ensures o.sent.None? ==> o.response == Resolve(sub, store).error
  {
    match Resolve(sub, store)
    case Err(e) => Outcome(e, None)
    case Ok(r) =>
      var report := GroupReport(
        r.chatId, Kind(sub), Upper(r.name), Str(ReporterId(sub)), ReporterName(sub),
        Description(sub), MapLink(LinkPrefix, Lat(sub), Lon(sub)), Address(sub), Notified(r.members));
      Outcome(Response(200, Status(SentTo(r.name))), Some(report))
  }

  // ---------------------------------------------------------------- lemmas

  /** The mention list covers exactly the opted-in members. */
  lemma {:induction false} OptedInExactly(ms: seq<Fields>)
    ensures |OptedIn(ms)| <= |ms|
    ensures forall m :: m in OptedIn(ms) <==> m in ms && AlertsOn(m)
  {
    if ms != [] {
      OptedInExactly(ms[1..]);
      assert ms == [ms[0]] + ms[1..];
    }
  }

  lemma {:induction false} OptedInAppend(a: seq<Fields>, b: seq<Fields>)
    ensures OptedIn(a + b) == OptedIn(a) + OptedIn(b)
  {
    if a != [] {
      assert (a + b)[1..] == a[1..] + b;
      OptedInAppend(a[1..], b);
    } else {
      assert a + b == b;
    }
  }

  lemma {:induction false} JoinSnoc(sep: string, xs: seq<string>, x: string)
    ensures Join(sep, xs + [x]) == if xs == [] then x else Join(sep, xs) + sep + x
  {
    if |xs| > 1 {
      assert (xs + [x])[1..] == xs[1..] + [x];
      JoinSnoc(sep, xs[1..], x);
    } else if |xs| == 1 {
      assert (xs + [x])[1..] == [x];
    }
  }

  /** The notified text grows member by member: an opted-in member's mention is
      appended after a single space (or starts the text), anyone else adds nothing. */
  lemma NotifiedSnoc(ms: seq<Fields>, m: Fields)
    ensures Notified(ms + [m]) ==
      if !AlertsOn(m) then Notified(ms)
      else if OptedIn(ms) == [] then Mention(m)
      else Notified(ms) + " " + Mention(m)
  {
    OptedInAppend(ms, [m]);
    assert OptedIn([m]) == (if AlertsOn(m) then [m] else []) by {
      assert [m][1..] == [];
    }
    if AlertsOn(m) {
      assert Mentions(OptedIn(ms) + [m]) == Mentions(OptedIn(ms)) + [Mention(m)];
      JoinSnoc(" ", Mentions(OptedIn(ms)), Mention(m));
    } else {
      assert OptedIn(ms) + [] == OptedIn(ms);
    }
  }

  /** The full variant's recipients are this variant's opted-in members with the
      reporter removed; when no opted-in member carries the reporter's id the two
      lists coincide, so this variant differs only in not excluding the reporter. */
  lemma {:induction false} RecipientsAreOptedInMinusReporter(ms: seq<Fields>, reporter: Val)
    ensures FullAlert.Recipients(ms, reporter) == WithoutReporter(OptedIn(ms), reporter)
    ensures (forall m :: m in OptedIn(ms) ==> Str(Get(m, "telegram_id", PyNone)) != Str(reporter)) ==>
      FullAlert.Recipients(ms, reporter) == OptedIn(ms)
  {
    if ms != [] {
      RecipientsAreOptedInMinusReporter(ms[1..], reporter);
      var head := if AlertsOn(ms[0]) then [ms[0]] else [];
      WithoutReporterAppend(head, OptedIn(ms[1..]), reporter);
      if AlertsOn(ms[0]) {
        assert head[1..] == [];
      }
    }
    WithoutReporterKeepsAll(OptedIn(ms), reporter);
  }

  /** Drops the members whose id equals the reporter's as a string. */
  function WithoutReporter(ms: seq<Fields>, reporter: Val): seq<Fields> {
    if ms == [] then []
    else
      var keep := Str(Get(ms[0], "telegram_id", PyNone)) != Str(reporter);
      (if keep then [ms[0]] else []) + WithoutReporter(ms[1..], reporter)
  }

  lemma {:induction false} WithoutReporterAppend(a: seq<Fields>, b: seq<Fields>, reporter: Val)
    ensures WithoutReporter(a + b, reporter) == WithoutReporter(a, reporter) + WithoutReporter(b, reporter)
  {
    if a != [] {
      var ab := a + b;
      assert ab[0] == a[0] && ab[1..] == a[1..] + b;
      var keep := Str(Get(a[0], "telegram_id", PyNone)) != Str(reporter);
      var h := if keep then [a[0]] else [];
      WithoutReporterAppend(a[1..], b, reporter);
      calc {
        WithoutReporter(ab, reporter);
        h + WithoutReporter(a[1..] + b, reporter);
        h + (WithoutReporter(a[1..], reporter) + WithoutReporter(b, reporter));
        (h + WithoutReporter(a[1..], reporter)) + WithoutReporter(b, reporter);
        WithoutReporter(a, reporter) + WithoutReporter(b, reporter);
      }
    } else {
      assert a + b == b;
    }
  }

  lemma {:induction false} WithoutReporterKeepsAll(ms: seq<Fields>, reporter: Val)
    ensures (forall m :: m in ms ==> Str(Get(m, "telegram_id", PyNone)) != Str(reporter)) ==>
      WithoutReporter(ms, reporter) == ms
  {
    if ms != [] {
      assert forall m :: m in ms[1..] ==> m in ms;
      WithoutReporterKeepsAll(ms[1..], reporter);
      assert ms == [ms[0]] + ms[1..];
    }
  }

  /** Both variants reject exactly the same submissions with exactly the same
      response, and accept the rest with a 200. */
  lemma SameLadderAsFull(sub: Submission, store: Store)
    ensures HandleAlert(sub, store).response.code == 200 <==> FullAlert.AlertResponse(sub, store).code == 200
    ensures HandleAlert(sub, store).sent.None? ==> HandleAlert(sub, store).response == FullAlert.AlertResponse(sub, store)
  {
    ResolveOutcomes(sub, store);
  }

  /** The map link of this variant carries the coordinates exactly when both are truthy. */
  lemma ReportMapLink(sub: Submission, store: Store)
    requires ',' !in Str(Lat(sub))
    ensures HandleAlert(sub, store).sent.Some? ==>
      var link := HandleAlert(sub, store).sent.value.mapLink;
      ParseMapLink(LinkPrefix, link) ==
        (if Truthy(Lat(sub)) && Truthy(Lon(sub)) then Some((Str(Lat(sub)), Str(Lon(sub)))) else None) &&
      (link == LocationUnavailable <==> !(Truthy(Lat(sub)) && Truthy(Lon(sub))))
  {
    assert |LocationUnavailable| < |LinkPrefix|;
    MapLinkRoundTrip(LinkPrefix, Lat(sub), Lon(sub));
  }
}
