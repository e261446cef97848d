/** The Flask backend: request validation and result selection of its four
    endpoints. Firestore is a sequence of documents in stream order; Firebase
    availability, the face library, Storage and the temporary folder are
    inputs or recorded effects. */
module Backend {
  import opened Types

  /** Stand-in for the face encoding (a vector of floats) the face library
      computes. */
  type Encoding = seq<real>

  /** A Firestore / JSON value as the endpoints handle it. */
  datatype Value = VStr(s: string) | VBool(b: bool) | VNull | VEncoding(e: Encoding)

  /** A document's dictionary, or a JSON object. */
  type Fields = map<string, Value>

  datatype Doc = Doc(id: string, fields: Fields)

  /** Whether the Firestore client and the Storage bucket came up at start. */
  datatype Firebase = Firebase(db: bool, bucket: bool)

  const NoFirebase: string := "No hay conexión con Firebase."

  // ---------------------------------------------------------------------
  // The `requisitoriado` form value, line 111.

  function LowerChar(c: char): char
  {
    if 'A' <= c <= 'Z' then (c as int + 32) as char else c
  }

  /** `str.lower()` on the ASCII letters: each capital becomes its small
      letter, every other character is kept, and no capital is left. */
  function AsciiLower(s: string): (r: string)
    ensures |r| == |s|
    ensures forall i :: 0 <= i < |s| && 'A' <= s[i] <= 'Z' ==> r[i] as int == s[i] as int + 32
    ensures forall i :: 0 <= i < |s| && !('A' <= s[i] <= 'Z') ==> r[i] == s[i]
    ensures forall i :: 0 <= i < |r| ==> !('A' <= r[i] <= 'Z')
  {
    seq(|s|, i requires 0 <= i < |s| => LowerChar(s[i]))
  }

  /** `request.form.get('requisitoriado', 'false').lower() in ['true', '1', 't']`. */
  function ParseRequisitoriado(value: Option<string>): (r: bool)
    ensures value.None? ==> !r
  {
    AsciiLower(if value.Some? then value.value else "false") in ["true", "1", "t"]
  }

  /** The spellings that read as true, written out. */
  predicate TrueSpelling(s: string)
  {
    || s == "1" || s == "t" || s == "T"
    || (&& |s| == 4
        && (s[0] == 't' || s[0] == 'T') && (s[1] == 'r' || s[1] == 'R')
        && (s[2] == 'u' || s[2] == 'U') && (s[3] == 'e' || s[3] == 'E'))
  }

  lemma LowerCharIs(c: char, l: char)
    requires 'a' <= l <= 'z'
    ensures LowerChar(c) == l <==> c == l || c as int == l as int - 32
  {
  }

  /** The parse accepts exactly "1", "t" and "true" in any letter case. */
  lemma ParseAcceptsExactly(s: string)
    ensures ParseRequisitoriado(Some(s)) <==> TrueSpelling(s)
  {
    var r := AsciiLower(s);
    if |s| == 1 {
      LowerCharIs(s[0], 't');
      assert r == [LowerChar(s[0])];
    } else if |s| == 4 {
      LowerCharIs(s[0], 't');
      LowerCharIs(s[1], 'r');
      LowerCharIs(s[2], 'u');
      LowerCharIs(s[3], 'e');
      assert r == [LowerChar(s[0]), LowerChar(s[1]), LowerChar(s[2]), LowerChar(s[3])];
    } else {
      assert |r| == |s|;
    }
  }

  // ---------------------------------------------------------------------
  // POST /register, lines 68 to 123.

  /** A file part of the request: Werkzeug's `FileStorage` with its name. */
  datatype PhotoFile = PhotoFile(filename: string)

  /** What the endpoint learns from code outside the model: what
      `secure_filename` makes of the name, whether the face library finds a
      face, the public URL Storage gives the blob, and whether the Firestore
      add succeeds (with the new document's id) or raises. */
  datatype RegisterEnv = RegisterEnv(safeName: string, face: Option<Encoding>, publicUrl: string, add: AddResult)

  datatype AddResult = Added(id: string) | AddFailed(message: string)

  /** The endpoint's side effects, in order. */
  datatype Effect =
    | SaveTemp(path: string)
    | RemoveTemp(path: string)
    | UploadBlob(blob: string, path: string)
    | AddDocument(fields: Fields)

  /** The JSON reply: an error with its status, or 201 with the new id and
      the stored data. */
  datatype RegisterReply = RegisterFailed(status: nat, error: string) | Registered(id: string, data: Fields)

  datatype RegisterOutcome = RegisterOutcome(reply: RegisterReply, effects: seq<Effect>)

  const UploadFolder: string := "temp_uploads"

  /** `request.form.get(key)`: the value, or None (JSON null). */
  function FormValue(form: map<string, string>, key: string): Value
  {
    if key in form then VStr(form[key]) else VNull
  }

  function FormString(form: map<string, string>, key: string): Option<string>
  {
    if key in form then Some(form[key]) else None
  }

  /** `profile_data`, lines 106 to 114. */
  function ProfileData(form: map<string, string>, publicUrl: string, face: Encoding): (d: Fields)
    ensures d.Keys == {"nombre", "apellidos", "codigo_estudiante", "correo", "requisitoriado", "photo_url", "face_encoding"}
    ensures forall k :: k in {"nombre", "apellidos", "codigo_estudiante", "correo"} ==>
      d[k] == (if k in form then VStr(form[k]) else VNull)
    ensures d["requisitoriado"] == VBool(ParseRequisitoriado(if "requisitoriado" in form then Some(form["requisitoriado"]) else None))
    ensures d["photo_url"] == VStr(publicUrl)
    ensures d["face_encoding"] == VEncoding(face)
  {
    map["nombre" := FormValue(form, "nombre"),
        "apellidos" := FormValue(form, "apellidos"),
        "codigo_estudiante" := FormValue(form, "codigo_estudiante"),
        "correo" := FormValue(form, "correo"),
        "requisitoriado" := VBool(ParseRequisitoriado(FormString(form, "requisitoriado"))),
        "photo_url" := VStr(publicUrl),
        "face_encoding" := VEncoding(face)]
  }

  predicate Stores(effects: seq<Effect>)
  {
    exists i :: 0 <= i < |effects| && effects[i].AddDocument?
  }

  function RegisterProfile(fb: Firebase, photo: Option<PhotoFile>, form: map<string, string>, env: RegisterEnv)
    : (o: RegisterOutcome)
    // Something is stored exactly when the reply is a success.
    ensures Stores(o.effects) <==> o.reply.Registered?
    // Nothing at all happens before the three request checks pass.
    ensures o.effects == [] <==> !fb.db || !fb.bucket || photo.None? || photo.value.filename == ""
    // The temporary file is removed whenever it was saved ...
    ensures forall i :: 0 <= i < |o.effects| && o.effects[i].SaveTemp? ==>
      exists j :: i < j < |o.effects| && o.effects[j] == RemoveTemp(o.effects[i].path)
    // ... and before anything is written to Firestore.
    ensures forall i, j ::
      (0 <= i < |o.effects| && 0 <= j < |o.effects| && o.effects[i].AddDocument? && o.effects[j].RemoveTemp?)
      ==> j < i
    ensures o.reply.RegisterFailed? ==> o.reply.status == 400 || o.reply.status == 500
    ensures o.reply.Registered? ==>
      && env.face.Some? && env.add == Added(o.reply.id)
      && o.reply.data == ProfileData(form, env.publicUrl, env.face.value)
    // Past the checks, with a face found, the reply is the store's answer.
    ensures fb.db && fb.bucket && photo.Some? && photo.value.filename != "" && env.face.Some? && env.add.Added? ==>
      o.reply == Registered(env.add.id, ProfileData(form, env.publicUrl, env.face.value))
    ensures fb.db && fb.bucket && photo.Some? && photo.value.filename != "" && env.face.Some? && env.add.AddFailed? ==>
      o.reply == RegisterFailed(500, "Error al guardar en Firestore: " + env.add.message)
  {
    if !fb.db || !fb.bucket then RegisterOutcome(RegisterFailed(500, NoFirebase), [])
    else if photo.None? then RegisterOutcome(RegisterFailed(400, "No se ha proporcionado ninguna foto."), [])
    else if photo.value.filename == "" then RegisterOutcome(RegisterFailed(400, "Nombre de archivo inválido."), [])
    else
      var path := UploadFolder + "/" + env.safeName;
      if env.face.None? then
        var cleaned := [SaveTemp(path), RemoveTemp(path)];
        assert cleaned[1] == RemoveTemp(path);
        RegisterOutcome(RegisterFailed(400, "No se pudo detectar un rostro en la imagen proporcionada."), cleaned)
      else
        var uploaded := [SaveTemp(path), UploadBlob("profile_images/" + env.safeName, path), RemoveTemp(path)];
        var data := ProfileData(form, env.publicUrl, env.face.value);
        match env.add
        case Added(id) =>
          var stored := uploaded + [AddDocument(data)];
          assert stored[2] == RemoveTemp(path) && stored[3].AddDocument?;
          RegisterOutcome(Registered(id, data), stored)
        case AddFailed(message) =>
          assert uploaded[2] == RemoveTemp(path);
          RegisterOutcome(RegisterFailed(500, "Error al guardar en Firestore: " + message), uploaded)
  }

  /** The order of the checks: Firebase, then the photo part, then its
      name, then the face; each failure answers before anything is kept. */
  lemma RegisterCheckOrder(fb: Firebase, photo: Option<PhotoFile>, form: map<string, string>, env: RegisterEnv)
    ensures !fb.db || !fb.bucket ==>
      RegisterProfile(fb, photo, form, env) == RegisterOutcome(RegisterFailed(500, NoFirebase), [])
    ensures fb.db && fb.bucket && photo.None? ==>
      RegisterProfile(fb, photo, form, env).reply == RegisterFailed(400, "No se ha proporcionado ninguna foto.")
    ensures fb.db && fb.bucket && photo.Some? && photo.value.filename == "" ==>
      RegisterProfile(fb, photo, form, env).reply == RegisterFailed(400, "Nombre de archivo inválido.")
    ensures fb.db && fb.bucket && photo.Some? && photo.value.filename != "" && env.face.None? ==>
      && RegisterProfile(fb, photo, form, env).reply.RegisterFailed?
      && RegisterProfile(fb, photo, form, env).reply.status == 400
      && !Stores(RegisterProfile(fb, photo, form, env).effects)
  {
  }

  // ---------------------------------------------------------------------
  // POST /analyze, lines 127 to 172.

  /** The JSON reply: an error with its status, or a 200 with the match. */
  datatype AnalyzeReply = AnalyzeFailed(status: nat, error: string) | Match(profile: Fields) | NoMatch(reason: string)

  const NoFaceReason: string := "No se detectó un rostro en la imagen enviada."
  const NoProfilesReason: string := "No hay perfiles registrados en la base de datos."
  const NoMatchReason: string := "No se encontró ninguna coincidencia."

  /** A stored face: its encoding and the document's dictionary with its
      id added. */
  datatype KnownFace = KnownFace(encoding: Value, profile: Fields)

  function KnownFaceOf(d: Doc): (k: KnownFace)
    requires "face_encoding" in d.fields
    ensures k.profile.Keys == d.fields.Keys + {"id"} && k.profile["id"] == VStr(d.id)
    ensures k.encoding == k.profile["face_encoding"] == d.fields["face_encoding"]
    ensures forall f :: f in d.fields && f != "id" ==> k.profile[f] == d.fields[f]
  {
    KnownFace(d.fields["face_encoding"], d.fields["id" := VStr(d.id)])
  }

  /** Lines 151 to 156: the documents that carry a `face_encoding`, in
      stream order; the rest are skipped. */
  function Known(docs: seq<Doc>): (r: seq<KnownFace>)
    ensures |r| <= |docs|
    ensures (forall i :: 0 <= i < |docs| ==> "face_encoding" !in docs[i].fields) ==> r == []
    decreases |docs|
  {
    if docs == [] then []
    else
      var last := docs[|docs| - 1];
      Known(docs[..|docs| - 1]) + (if "face_encoding" in last.fields then [KnownFaceOf(last)] else [])
  }

  predicate HasEncoding(d: Doc) { "face_encoding" in d.fields }

  /** Every candidate comes from a document with an encoding, and there is
      a candidate as soon as one document has an encoding. */
  lemma {:induction false} KnownCandidates(docs: seq<Doc>)
    ensures (exists i :: 0 <= i < |docs| && HasEncoding(docs[i])) <==> Known(docs) != []
    ensures forall k :: 0 <= k < |Known(docs)| ==>
      exists i :: 0 <= i < |docs| && HasEncoding(docs[i]) && Known(docs)[k] == KnownFaceOf(docs[i])
    decreases |docs|
  {
    if docs != [] {
      var init, last := docs[..|docs| - 1], docs[|docs| - 1];
      KnownCandidates(init);
      assert forall i :: 0 <= i < |init| ==> init[i] == docs[i];
      var r := Known(docs);
      assert r == Known(init) + (if HasEncoding(last) then [KnownFaceOf(last)] else []);
      forall k | 0 <= k < |r|
        ensures exists i :: 0 <= i < |docs| && HasEncoding(docs[i]) && r[k] == KnownFaceOf(docs[i])
      {
        if k < |Known(init)| {
          var i :| 0 <= i < |init| && HasEncoding(init[i]) && Known(init)[k] == KnownFaceOf(init[i]);
          assert docs[i] == init[i];
        } else {
          assert r[k] == KnownFaceOf(docs[|docs| - 1]);
        }
      }
      if exists i :: 0 <= i < |docs| && HasEncoding(docs[i]) {
        var i :| 0 <= i < |docs| && HasEncoding(docs[i]);
        if i < |init| {
          assert HasEncoding(init[i]);
        }
      }
    }
  }

  /** The document at index `i` adds its candidate, if it has an encoding,
      right after the candidates of the documents before it. */
  lemma KnownOfPrefix(docs: seq<Doc>, i: int)
    requires 0 <= i < |docs|
    ensures Known(docs[..i + 1]) == Known(docs[..i]) + (if HasEncoding(docs[i]) then [KnownFaceOf(docs[i])] else [])
  {
    assert docs[..i + 1][..i] == docs[..i];
  }

  /** The candidates of a prefix of the stream are a prefix of the candidates. */
  lemma {:induction false} KnownPrefix(docs: seq<Doc>, n: int)
    requires 0 <= n <= |docs|
    ensures Known(docs[..n]) <= Known(docs)
    decreases |docs|
  {
    if n < |docs| {
      var init := docs[..|docs| - 1];
      KnownPrefix(init, n);
      assert init[..n] == docs[..n];
    } else {
      assert docs[..n] == docs;
    }
  }

  /** Every document with an encoding becomes a candidate, at the position
      given by the number of candidates before it. */
  lemma KnownAt(docs: seq<Doc>, i: int)
    requires 0 <= i < |docs| && HasEncoding(docs[i])
    ensures |Known(docs[..i])| < |Known(docs)|
    ensures Known(docs)[|Known(docs[..i])|] == KnownFaceOf(docs[i])
    ensures KnownFaceOf(docs[i]) in Known(docs)
  {
    KnownOfPrefix(docs, i);
    KnownPrefix(docs, i + 1);
    assert Known(docs[..i + 1])[|Known(docs[..i])|] == KnownFaceOf(docs[i]);
  }

  /** The first match among the candidates is the first document, in stream
      order, whose encoding matches. */
  lemma FirstMatchingDocument(docs: seq<Doc>, unknown: Encoding, sameFace: (Value, Encoding) -> bool, i: int)
    requires 0 <= i < |docs| && HasEncoding(docs[i]) && sameFace(KnownFaceOf(docs[i]).encoding, unknown)
    requires forall j :: 0 <= j < i && HasEncoding(docs[j]) ==> !sameFace(KnownFaceOf(docs[j]).encoding, unknown)
    ensures exists k :: IsFirstTrue(Matches(Known(docs), unknown, sameFace), k) && Known(docs)[k] == KnownFaceOf(docs[i])
  {
    var before := Known(docs[..i]);
    var k := |before|;
    var m := Matches(Known(docs), unknown, sameFace);
    KnownAt(docs, i);
    KnownPrefix(docs, i);
    KnownCandidates(docs[..i]);
    forall j | 0 <= j < k
      ensures !m[j]
    {
      assert Known(docs)[j] == before[j];
      var i' :| 0 <= i' < i && HasEncoding(docs[..i][i']) && before[j] == KnownFaceOf(docs[..i][i']);
      assert docs[..i][i'] == docs[i'];
    }
    assert IsFirstTrue(m, k);
  }

  /** No candidate matches when no document's encoding matches. */
  lemma NoDocumentMatches(docs: seq<Doc>, unknown: Encoding, sameFace: (Value, Encoding) -> bool)
    requires forall j :: 0 <= j < |docs| && HasEncoding(docs[j]) ==> !sameFace(KnownFaceOf(docs[j]).encoding, unknown)
    ensures forall k :: 0 <= k < |Known(docs)| ==> !Matches(Known(docs), unknown, sameFace)[k]
  {
    KnownCandidates(docs);
  }

  /** `compare_faces` applied to every known encoding. */
  function Matches(known: seq<KnownFace>, unknown: Encoding, sameFace: (Value, Encoding) -> bool): (m: seq<bool>)
    ensures |m| == |known|
    ensures forall k :: 0 <= k < |m| ==> m[k] == sameFace(known[k].encoding, unknown)
  {
    seq(|known|, k requires 0 <= k < |known| => sameFace(known[k].encoding, unknown))
  }

  predicate IsFirstTrue(m: seq<bool>, k: int)
  {
    0 <= k < |m| && m[k] && forall j :: 0 <= j < k ==> !m[j]
  }

  /** `analyze_image`, with `unknown` for what the face library finds in the
      photo and `sameFace` for the per-encoding comparison at tolerance 0.5. */
  method AnalyzeImage(fb: Firebase, photo: Option<PhotoFile>, unknown: Option<Encoding>, docs: seq<Doc>,
                      sameFace: (Value, Encoding) -> bool)
    returns (reply: AnalyzeReply)
    ensures !fb.db ==> reply == AnalyzeFailed(500, NoFirebase)
    ensures fb.db && photo.None? ==> reply == AnalyzeFailed(400, "No se ha proporcionado ninguna foto para analizar.")
    ensures fb.db && photo.Some? && unknown.None? ==> reply == NoMatch(NoFaceReason)
    ensures fb.db && photo.Some? && unknown.Some? && Known(docs) == [] ==> reply == NoMatch(NoProfilesReason)
    ensures reply.Match? ==>
      && fb.db && photo.Some? && unknown.Some?
      && exists k :: IsFirstTrue(Matches(Known(docs), unknown.value, sameFace), k) && reply.profile == Known(docs)[k].profile
    ensures fb.db && photo.Some? && unknown.Some? && Known(docs) != [] ==>
      (reply.Match? || reply == NoMatch(NoMatchReason)) &&
      (reply.Match? <==> exists k :: 0 <= k < |Known(docs)| && sameFace(Known(docs)[k].encoding, unknown.value))
  {
    if !fb.db {
      return AnalyzeFailed(500, NoFirebase);
    }
    if photo.None? {
      return AnalyzeFailed(400, "No se ha proporcionado ninguna foto para analizar.");
    }
    if unknown.None? {
      return NoMatch(NoFaceReason);
    }
    var knownEncodings: seq<Value> := [];
    var knownProfiles: seq<Fields> := [];
    var i := 0;
    while i < |docs|
      invariant 0 <= i <= |docs|
      invariant |knownEncodings| == |knownProfiles| == |Known(docs[..i])|
      invariant forall k :: 0 <= k < |knownEncodings| ==>
        knownEncodings[k] == Known(docs[..i])[k].encoding && knownProfiles[k] == Known(docs[..i])[k].profile
    {
      assert docs[..i + 1][..i] == docs[..i];
      var d := docs[i].fields;
      if "face_encoding" in d {
        knownEncodings := knownEncodings + [d["face_encoding"]];
        knownProfiles := knownProfiles + [d["id" := VStr(docs[i].id)]];
      }
      i := i + 1;
    }
    assert docs[..i] == docs;
    if knownProfiles == [] {
      return NoMatch(NoProfilesReason);
    }
    var matches := seq(|knownEncodings|, k requires 0 <= k < |knownEncodings| => sameFace(knownEncodings[k], unknown.value));
    assert matches == Matches(Known(docs), unknown.value, sameFace);
    var m := 0;
    while m < |matches| && !matches[m]
      invariant 0 <= m <= |matches|
      invariant forall j :: 0 <= j < m ==> !matches[j]
    {
      m := m + 1;
    }
    if m < |matches| {
      assert IsFirstTrue(matches, m);
      reply := Match(knownProfiles[m]);
    } else {
      reply := NoMatch(NoMatchReason);
    }
  }

  // ---------------------------------------------------------------------
  // GET /profiles, lines 176 to 191.

  /** One list entry: the dictionary with `id` set to the document id and
      `face_encoding` removed. */
  function Projected(d: Doc): (r: Fields)
    ensures "id" in r && r["id"] == VStr(d.id)
    ensures "face_encoding" !in r
    ensures r.Keys == (d.fields.Keys + {"id"}) - {"face_encoding"}
    ensures forall k :: k in d.fields && k != "id" && k != "face_encoding" ==> r[k] == d.fields[k]
  {
    d.fields["id" := VStr(d.id)] - {"face_encoding"}
  }

  datatype ProfilesReply = ProfilesFailed(status: nat, error: string) | ProfilesOk(profiles: seq<Fields>)

  /** `get_all_profiles`, with `streamError` for an exception raised while
      the documents are streamed. */
  method GetAllProfiles(fb: Firebase, docs: seq<Doc>, streamError: Option<string>) returns (reply: ProfilesReply)
    ensures !fb.db ==> reply == ProfilesFailed(500, NoFirebase)
    ensures fb.db && streamError.Some? ==>
      reply == ProfilesFailed(500, "Error al obtener perfiles: " + streamError.value)
    ensures fb.db && streamError.None? ==>
      && reply.ProfilesOk?
      && |reply.profiles| == |docs|
      && forall i :: 0 <= i < |docs| ==> reply.profiles[i] == Projected(docs[i])
  {
    if !fb.db {
      return ProfilesFailed(500, NoFirebase);
    }
    if streamError.Some? {
      return ProfilesFailed(500, "Error al obtener perfiles: " + streamError.value);
    }
    var profiles: seq<Fields> := [];
    var i := 0;
    while i < |docs|
      invariant 0 <= i <= |docs|
      invariant |profiles| == i
      invariant forall k :: 0 <= k < i ==> profiles[k] == Projected(docs[k])
    {
      var profileData := docs[i].fields;
      profileData := profileData["id" := VStr(docs[i].id)];
      if "face_encoding" in profileData {
        profileData := profileData - {"face_encoding"};
      }
      profiles := profiles + [profileData];
      i := i + 1;
    }
    reply := ProfilesOk(profiles);
  }

  // ---------------------------------------------------------------------
  // PUT and DELETE /profiles/<id>, lines 194 to 212.

  /** An error with its status; a 200 with its message; or an exception the
      handler does not catch (Flask's generic 500). */
  datatype ManageReply = ManageFailed(status: nat, error: string) | ManageOk(message: string) | Uncaught

  datatype ManageOutcome = ManageOutcome(reply: ManageReply, store: seq<Doc>)

  predicate HasId(store: seq<Doc>, id: string)
  {
    exists k :: 0 <= k < |store| && store[k].id == id
  }

  /** Firestore's `update`: the named fields are set, the others kept. */
  function Updated(store: seq<Doc>, id: string, body: Fields): (r: seq<Doc>)
    ensures |r| == |store|
    ensures forall k :: 0 <= k < |r| ==> r[k].id == store[k].id
    ensures forall k :: 0 <= k < |r| && store[k].id != id ==> r[k] == store[k]
    ensures forall k :: 0 <= k < |r| && store[k].id == id ==>
      && r[k].fields.Keys == store[k].fields.Keys + body.Keys
      && (forall f :: f in body ==> r[k].fields[f] == body[f])
      && (forall f :: f in store[k].fields && f !in body ==> r[k].fields[f] == store[k].fields[f])
  {
    seq(|store|, k requires 0 <= k < |store| =>
      if store[k].id == id then Doc(id, store[k].fields + body) else store[k])
  }

  /** `manage_profile` for PUT; `body` is `request.get_json()`. Updating an
      id Firestore does not hold raises inside the handler. */
  function UpdateProfile(fb: Firebase, store: seq<Doc>, id: string, body: Option<Fields>): (o: ManageOutcome)
    ensures o.reply.ManageOk? ==> body.Some? && body.value != map[] && o.store == Updated(store, id, body.value)
    ensures !o.reply.ManageOk? ==> o.store == store
    ensures fb.db && (body.None? || body.value == map[]) ==>
      o.reply == ManageFailed(400, "No se proporcionaron datos para actualizar.")
    ensures fb.db && body.Some? && body.value != map[] && HasId(store, id) ==>
      o.reply == ManageOk("Perfil " + id + " actualizado.")
    ensures fb.db && body.Some? && body.value != map[] && !HasId(store, id) ==> o.reply == Uncaught
    ensures !fb.db ==> o == ManageOutcome(ManageFailed(500, NoFirebase), store)
  {
    if !fb.db then ManageOutcome(ManageFailed(500, NoFirebase), store)
    else if body.None? || body.value == map[] then
      ManageOutcome(ManageFailed(400, "No se proporcionaron datos para actualizar."), store)
    else if !HasId(store, id) then ManageOutcome(Uncaught, store)
    else ManageOutcome(ManageOk("Perfil " + id + " actualizado."), Updated(store, id, body.value))
  }

  /** The store without the documents of one id, the others in order. */
  function Without(store: seq<Doc>, id: string): (r: seq<Doc>)
    ensures forall d :: d in r <==> d in store && d.id != id
    ensures !HasId(r, id)
    ensures |r| <= |store|
    ensures !HasId(store, id) ==> r == store
    decreases |store|
  {
    if store == [] then []
    else if store[0].id == id then Without(store[1..], id)
    else
      assert !HasId(store, id) ==> !HasId(store[1..], id) by {
        if HasId(store[1..], id) {
          var k :| 0 <= k < |store[1..]| && store[1..][k].id == id;
          assert store[k + 1].id == id;
        }
      }
      [store[0]] + Without(store[1..], id)
  }

  /** Deleting from a concatenation deletes from each part: the documents
      that remain keep their stream order. */
  lemma {:induction false} WithoutAppend(a: seq<Doc>, b: seq<Doc>, id: string)
    ensures Without(a + b, id) == Without(a, id) + Without(b, id)
    decreases |a|
  {
    if a == [] {
      assert a + b == b;
    } else {
      assert (a + b)[0] == a[0];
      assert (a + b)[1..] == a[1..] + b;
      WithoutAppend(a[1..], b, id);
    }
  }

  /** `manage_profile` for DELETE: deleting an id Firestore does not hold
      is not an error. */
  function DeleteProfile(fb: Firebase, store: seq<Doc>, id: string): (o: ManageOutcome)
    ensures !fb.db ==> o == ManageOutcome(ManageFailed(500, NoFirebase), store)
    ensures fb.db ==> o.reply == ManageOk("Perfil " + id + " eliminado.") && o.store == Without(store, id)
  {
    if !fb.db then ManageOutcome(ManageFailed(500, NoFirebase), store)
    else ManageOutcome(ManageOk("Perfil " + id + " eliminado."), Without(store, id))
  }
}
