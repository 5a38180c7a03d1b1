/**
 * What the two alert handlers share: the community store behind
 * `load_community_json`, the alert submission, the HTTP response, the
 * validation ladder that runs before any send (400, 404, 500), the fields read
 * from the submission with their defaults, and the map-link expression.
 */
module Directory {
  import opened Wrappers
  import opened PyValues

  // ---------------------------------------------------------------- community store

  /** A community file as `json.load` returns it. `fields` holds its scalar keys
      (`chat_id` among them); the `miembros` list, when the key is present, is
      kept apart, one object per member (`telegram_id`, `nombre`,
      `alertas_activadas`, `telefono`). */
  datatype CommunityRecord = CommunityRecord(fields: Fields, miembros: Option<seq<Fields>>)

  /** `if not comunidad_info:` fails for the empty dictionary `{}` only. */
  predicate RecordTruthy(rec: CommunityRecord) {
    rec.fields != map[] || rec.miembros.Some?
  }

  /** `comunidad_info.get('miembros', [])` */
  function Members(rec: CommunityRecord): seq<Fields> {
    rec.miembros.GetOr([])
  }

  /** A file under `comunidades/`: one that `json.load` rejects, or its parsed content. */
  datatype StoredFile = Unreadable | Parsed(record: CommunityRecord)

  /** The `comunidades/` directory: file stem (the lower-cased name) to file.
      A name with no entry is a file that does not exist. */
  type Store = map<string, StoredFile>

  /** `load_community_json`: the record of `<name.lower()>.json`, or None when the
      file is missing or cannot be read or decoded. */
  function LoadCommunity(store: Store, name: string): Option<CommunityRecord> {
    var stem := Lower(name);
    if stem in store && store[stem].Parsed? then Some(store[stem].record) else None
  }

  /** The lookup does not depend on the case of the name: names that lower-case
      alike find the same file, and the upper-cased and the lower-cased name
      find the same file as the name itself. */
  lemma LoadIgnoresCase(store: Store, name: string, other: string)
    ensures Lower(name) == Lower(other) ==> LoadCommunity(store, name) == LoadCommunity(store, other)
    ensures LoadCommunity(store, Upper(name)) == LoadCommunity(store, name)
    ensures LoadCommunity(store, Lower(name)) == LoadCommunity(store, name)
  {
    LowerOfUpper(name);
    LowerIdempotent(name);
  }

  // ---------------------------------------------------------------- requests and responses

  /** The JSON body of `POST /api/alert`. `fields` holds its scalar keys
      (`comunidad`, `tipo`, `descripcion`, `direccion`); `user` is the
      `user_telegram` object and `location` the `ubicacion` object, each the
      empty map when the key is absent. */
  datatype Submission = Submission(fields: Fields, user: Fields, location: Fields)

  /** The JSON body of a response: `{"status": ...}`, `{"error": ...}`, or the
      framework's own error page when the handler raised. */
  datatype Body = Status(text: string) | Error(text: string) | ServerError

  datatype Response = Response(code: int, body: Body)

  const MissingCommunity := "Nombre de comunidad no proporcionado"
  const MissingChat := "ID del chat de Telegram no configurado para esta comunidad"

  function NotFound(name: string): string {
    "Comunidad '" + name + "' no encontrada"
  }

  /** `data.get('comunidad')` */
  function CommunityName(sub: Submission): Val {
    Get(sub.fields, "comunidad", PyNone)
  }

  /** A submission that passed validation: the community name as given, the
      group chat target and the member list. */
  datatype Resolved = Resolved(name: string, chatId: Val, members: seq<Fields>)

  /** The checks both `handle_alert`s make before composing anything. A truthy
      `comunidad` that is not a string makes `.lower()` raise, which the
      framework turns into a 500. */
  function Resolve(sub: Submission, store: Store): Result<Resolved, Response> {
    var c := CommunityName(sub);
    if !Truthy(c) then Err(Response(400, Error(MissingCommunity)))
    else if !c.PyStr? then Err(Response(500, ServerError))
    else
      match LoadCommunity(store, c.s)
      case None => Err(Response(404, Error(NotFound(c.s))))
      case Some(rec) =>
        if !RecordTruthy(rec) then Err(Response(404, Error(NotFound(c.s))))
        else
          var chat := Get(rec.fields, "chat_id", PyNone);
          if !Truthy(chat) then Err(Response(500, Error(MissingChat)))
          else Ok(Resolved(c.s, chat, Members(rec)))
  }

  /** The ladder rung by rung: a missing name is a 400 before any lookup; a
      missing, unreadable or empty community is a 404; a community without a
      chat id is a 500; only a community that passes all three is accepted. */
  lemma ValidationLadder(sub: Submission, store: Store)
    ensures !Truthy(CommunityName(sub)) ==>
      Resolve(sub, store) == Err(Response(400, Error(MissingCommunity)))
    ensures Truthy(CommunityName(sub)) && !CommunityName(sub).PyStr? ==>
      Resolve(sub, store) == Err(Response(500, ServerError))
    ensures Truthy(CommunityName(sub)) && CommunityName(sub).PyStr? ==>
      var name := CommunityName(sub).s;
      var rec := LoadCommunity(store, name);
      (rec.None? || !RecordTruthy(rec.value) ==>
         Resolve(sub, store) == Err(Response(404, Error(NotFound(name))))) &&
      (rec.Some? && RecordTruthy(rec.value) && !Truthy(Get(rec.value.fields, "chat_id", PyNone)) ==>
         Resolve(sub, store) == Err(Response(500, Error(MissingChat)))) &&
      (rec.Some? && RecordTruthy(rec.value) && Truthy(Get(rec.value.fields, "chat_id", PyNone)) ==>
         Resolve(sub, store) == Ok(Resolved(name, Get(rec.value.fields, "chat_id", PyNone), Members(rec.value))))
  {
  }

  /** An accepted submission always names a string community whose record has a
      truthy chat id and whose file decoded; every rejection carries 400, 404 or 500. */
  lemma ResolveOutcomes(sub: Submission, store: Store)
    ensures Resolve(sub, store).Ok? ==>
      var r := Resolve(sub, store).value;
      CommunityName(sub) == PyStr(r.name) && Truthy(r.chatId) &&
      Lower(r.name) in store && store[Lower(r.name)].Parsed? &&
      r.chatId == Get(store[Lower(r.name)].record.fields, "chat_id", PyNone)
    ensures Resolve(sub, store).Err? ==> Resolve(sub, store).error.code in {400, 404, 500}
  {
  }

  // ---------------------------------------------------------------- submission fields

  /** `data.get('tipo', 'Alerta no especificada')` */
  function Kind(sub: Submission): string {
    Str(Get(sub.fields, "tipo", PyStr("Alerta no especificada")))
  }

  /** `data.get('descripcion', 'Sin descripción')` */
  function Description(sub: Submission): string {
    Str(Get(sub.fields, "descripcion", PyStr("Sin descripción")))
  }

  /** `data.get('direccion', 'Dirección no disponible')` */
  function Address(sub: Submission): string {
    Str(Get(sub.fields, "direccion", PyStr("Dirección no disponible")))
  }

  /** `user_telegram.get('first_name', 'Anónimo')` */
  function ReporterName(sub: Submission): string {
    Str(Get(sub.user, "first_name", PyStr("Anónimo")))
  }

  /** `user_telegram.get('id', 'N/A')` */
  function ReporterId(sub: Submission): Val {
    Get(sub.user, "id", PyStr("N/A"))
  }

  /** The defaults a submission falls back on when a key is missing. */
  lemma FieldDefaults(sub: Submission)
    ensures "tipo" !in sub.fields ==> Kind(sub) == "Alerta no especificada"
    ensures "descripcion" !in sub.fields ==> Description(sub) == "Sin descripción"
    ensures "direccion" !in sub.fields ==> Address(sub) == "Dirección no disponible"
    ensures "first_name" !in sub.user ==> ReporterName(sub) == "Anónimo"
    ensures "id" !in sub.user ==> Str(ReporterId(sub)) == "N/A"
    ensures "descripcion" in sub.fields && sub.fields["descripcion"].PyStr? ==>
      Description(sub) == sub.fields["descripcion"].s
  {
  }

  /** Whether a member opted in: `m.get('alertas_activadas')` is truthy. */
  predicate AlertsOn(m: Fields) {
    Truthy(Get(m, "alertas_activadas", PyNone))
  }

  // ---------------------------------------------------------------- map link

  const LocationUnavailable := "Ubicación no disponible"

  /** `ubicacion.get('lat')` and `ubicacion.get('lon')` */
  function Lat(sub: Submission): Val { Get(sub.location, "lat", PyNone) }
  function Lon(sub: Submission): Val { Get(sub.location, "lon", PyNone) }

  /** `f"{prefix}{lat},{lon}" if lat and lon else "Ubicación no disponible"` */
  function MapLink(prefix: string, lat: Val, lon: Val): string {
    if Truthy(lat) && Truthy(lon) then prefix + Str(lat) + "," + Str(lon) else LocationUnavailable
  }

  /** The first position of `c` in `s`, if any. */
  function IndexOf(s: string, c: char): (r: Option<nat>)
    ensures r.None? ==> c !in s
    ensures r.Some? ==> r.value < |s| && s[r.value] == c && c !in s[..r.value]
  {
    if s == [] then None
    else if s[0] == c then Some(0)
    else match IndexOf(s[1..], c)
      case None => None
      case Some(k) => assert s[..k + 1] == [s[0]] + s[1..][..k]; Some(k + 1)
  }

  /** Reads the two coordinates back out of a link built by `MapLink`. */
  function ParseMapLink(prefix: string, link: string): Option<(string, string)> {
    if !StartsWith(link, prefix) then None
    else
      var rest := link[|prefix|..];
      match IndexOf(rest, ',')
      case None => None
      case Some(k) => Some((rest[..k], rest[k + 1..]))
  }

  /** A link is built exactly when both coordinates are truthy, and it then
      carries exactly those two values; otherwise the field is the literal
      "Ubicación no disponible". (A float's `str()` never contains a comma.) */
  lemma {:induction false} MapLinkRoundTrip(prefix: string, lat: Val, lon: Val)
    requires ',' !in Str(lat)
    requires !StartsWith(LocationUnavailable, prefix)
    ensures ParseMapLink(prefix, MapLink(prefix, lat, lon)) ==
      if Truthy(lat) && Truthy(lon) then Some((Str(lat), Str(lon))) else None
    ensures !(Truthy(lat) && Truthy(lon)) <==> MapLink(prefix, lat, lon) == LocationUnavailable
  {
    if Truthy(lat) && Truthy(lon) {
      LinkRoundTrip(prefix, Str(lat), Str(lon));
    }
  }

  /** A comma-free first value and any second value parse back out of the link. */
  lemma LinkRoundTrip(prefix: string, a: string, b: string)
    requires ',' !in a
    requires !StartsWith(LocationUnavailable, prefix)
    ensures ParseMapLink(prefix, prefix + a + "," + b) == Some((a, b))
    ensures prefix + a + "," + b != LocationUnavailable
  {
    var link := prefix + a + "," + b;
    assert link[..|prefix|] == prefix;
    var rest := link[|prefix|..];
    assert rest == a + [','] + b;
    CommaAfter(a, b);
    assert rest[..|a|] == a && rest[|a| + 1..] == b;
    assert StartsWith(link, prefix);
  }

  lemma {:induction false} CommaAfter(a: string, b: string)
    requires ',' !in a
    ensures IndexOf(a + [','] + b, ',') == Some(|a|)
  {
    if a != [] {
      assert (a + [','] + b)[1..] == a[1..] + [','] + b;
      CommaAfter(a[1..], b);
    }
  }
}
