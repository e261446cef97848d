/** What the backend makes of the requests the client builds: the multipart
    body of the register screen read as Flask's `request.form` and
    `request.files`, and the edit screen's JSON body read by
    `request.get_json()`. */
module Wire {
  import opened Types
  import opened Text
  import opened Upload
  import Registration
  import Editing
  import opened Backend

  /** `request.form`: the text parts by name; for a repeated name `get`
      returns the first value. */
  function FormMap(parts: seq<Part>): map<string, string>
    decreases |parts|
  {
    if parts == [] then map[]
    else
      var rest := FormMap(parts[1..]);
      if parts[0].TextPart? then rest[parts[0].name := parts[0].text] else rest
  }

  /** `request.files['photo']`: the first file part named `photo`. */
  function PhotoUpload(parts: seq<Part>): (u: Option<PhotoFile>)
    ensures u.Some? <==> exists i :: 0 <= i < |parts| && IsPhotoPart(parts[i])
    ensures u.Some? ==> exists i :: IsFirstPhotoPart(parts, i) && u.value == PhotoFile(parts[i].filename)
    decreases |parts|
  {
    if parts == [] then None
    else if IsPhotoPart(parts[0]) then
      assert IsFirstPhotoPart(parts, 0);
      Some(PhotoFile(parts[0].filename))
    else
      var rest := PhotoUpload(parts[1..]);
      assert forall i :: 0 <= i < |parts[1..]| ==> parts[1..][i] == parts[i + 1];
      assert rest.Some? ==> exists i :: IsFirstPhotoPart(parts, i) && rest.value == PhotoFile(parts[i].filename) by {
        if rest.Some? {
          var i :| IsFirstPhotoPart(parts[1..], i) && rest.value == PhotoFile(parts[1..][i].filename);
          assert IsFirstPhotoPart(parts, i + 1);
        }
      }
      assert (exists i :: 0 <= i < |parts| && IsPhotoPart(parts[i])) ==> rest.Some? by {
        if exists i :: 0 <= i < |parts| && IsPhotoPart(parts[i]) {
          var i :| 0 <= i < |parts| && IsPhotoPart(parts[i]);
          assert IsPhotoPart(parts[1..][i - 1]);
        }
      }
      rest
  }

  predicate IsPhotoPart(p: Part)
  {
    p.FilePart? && p.name == "photo"
  }

  /** Part `i` is a photo part and no earlier part is one. */
  predicate IsFirstPhotoPart(parts: seq<Part>, i: int)
  {
    0 <= i < |parts| && IsPhotoPart(parts[i]) && forall j :: 0 <= j < i ==> !IsPhotoPart(parts[j])
  }

  /** The flag the register screen sends as `String(flag)` is read back as
      the same boolean. */
  lemma FlagRoundTrip(b: bool)
    ensures ParseRequisitoriado(Some(BoolString(b))) == b
  {
    ParseAcceptsExactly(BoolString(b));
  }

  /** The form values the register screen sends, by name. */
  function SentForm(form: ProfileForm, flag: bool): (m: map<string, string>)
    ensures m.Keys == {"nombre", "apellidos", "codigo_estudiante", "correo", "requisitoriado"}
    ensures forall f :: m[FieldKey(f)] == FieldValue(form, f)
    ensures m["requisitoriado"] == BoolString(flag)
  {
    map["nombre" := form.nombre, "apellidos" := form.apellidos,
        "codigo_estudiante" := form.codigo_estudiante, "correo" := form.correo,
        "requisitoriado" := BoolString(flag)]
  }

  /** Flask reads the register screen's multipart body as the photo under
      its upload name and the five text values. */
  lemma RegisterPartsRead(uri: string, name: string, form: ProfileForm, flag: bool)
    ensures PhotoUpload(Registration.RegisterParts(uri, name, form, flag)) == Some(PhotoFile(name))
    ensures FormMap(Registration.RegisterParts(uri, name, form, flag)) == SentForm(form, flag)
  {
    var parts := Registration.RegisterParts(uri, name, form, flag);
    assert parts[6..] == [];
    assert forall i :: 0 <= i < 6 ==> parts[i..][1..] == parts[i + 1..];
    assert FormMap(parts[5..]) == map["requisitoriado" := BoolString(flag)];
    assert FormMap(parts[4..]) == FormMap(parts[5..])["correo" := form.correo];
    assert FormMap(parts[3..]) == FormMap(parts[4..])["codigo_estudiante" := form.codigo_estudiante];
    assert FormMap(parts[2..]) == FormMap(parts[3..])["apellidos" := form.apellidos];
    assert FormMap(parts[1..]) == FormMap(parts[2..])["nombre" := form.nombre];
    assert parts[0..] == parts;
  }

  /** The multipart body of a submitted registration gets past the three
      request checks of `/register`: it fails only when no face is found or
      the store refuses the document, and what is stored carries the form's
      values and the flag. */
  lemma RegisterRequestAccepted(now: nat, uri: string, form: ProfileForm, flag: bool,
                                fb: Firebase, env: RegisterEnv)
    requires fb.db && fb.bucket
    ensures
      var parts := Registration.RegisterParts(uri, UniqueFilename(now, uri), form, flag);
      var o := RegisterProfile(fb, PhotoUpload(parts), FormMap(parts), env);
      && (o.reply.RegisterFailed? <==> env.face.None? || env.add.AddFailed?)
      && (o.reply.Registered? ==>
            && o.reply.data["nombre"] == VStr(form.nombre)
            && o.reply.data["apellidos"] == VStr(form.apellidos)
            && o.reply.data["codigo_estudiante"] == VStr(form.codigo_estudiante)
            && o.reply.data["correo"] == VStr(form.correo)
            && o.reply.data["requisitoriado"] == VBool(flag))
  {
    var name := UniqueFilename(now, uri);
    RegisterPartsRead(uri, name, form, flag);
    assert name != "";
    if env.face.Some? {
      SentFormStored(form, flag, env.publicUrl, env.face.value);
    }
  }

  /** What `profile_data` makes of the register screen's text values. */
  lemma SentFormStored(form: ProfileForm, flag: bool, publicUrl: string, face: Encoding)
    ensures
      var d := ProfileData(SentForm(form, flag), publicUrl, face);
      && d["nombre"] == VStr(form.nombre)
      && d["apellidos"] == VStr(form.apellidos)
      && d["codigo_estudiante"] == VStr(form.codigo_estudiante)
      && d["correo"] == VStr(form.correo)
      && d["requisitoriado"] == VBool(flag)
  {
    var m := SentForm(form, flag);
    assert m["nombre"] == m[FieldKey(Nombre)];
    assert m["apellidos"] == m[FieldKey(Apellidos)];
    assert m["codigo_estudiante"] == m[FieldKey(CodigoEstudiante)];
    assert m["correo"] == m[FieldKey(Correo)];
    FlagRoundTrip(flag);
  }

  /** A JSON object as Python reads it: a repeated key keeps its last value. */
  function JsonFields(body: seq<(string, Json)>): (m: Fields)
    ensures forall k :: k in m <==> exists i :: 0 <= i < |body| && body[i].0 == k
    decreases |body|
  {
    if body == [] then map[]
    else
      var last := body[|body| - 1];
      var rest := JsonFields(body[..|body| - 1]);
      assert forall i :: 0 <= i < |body| - 1 ==> body[..|body| - 1][i] == body[i];
      rest[last.0 := JsonValue(last.1)]
  }

  function JsonValue(j: Json): Value
  {
    match j
    case JStr(s) => VStr(s)
    case JBool(b) => VBool(b)
  }

  /** The edit screen's body is never refused as empty; for an id the store
      holds, the document ends up with the draft's four values and the flag,
      and for an id it no longer holds the update raises. */
  lemma EditRequestAccepted(fb: Firebase, store: seq<Doc>, id: string, form: ProfileForm, flag: bool)
    requires fb.db
    ensures
      var o := UpdateProfile(fb, store, id, Some(JsonFields(Editing.PutBody(form, flag))));
      && (o.reply.ManageOk? || o.reply.Uncaught?)
      && (!HasId(store, id) ==> o.reply.Uncaught? && o.store == store)
      && (HasId(store, id) ==>
            && o.reply == ManageOk("Perfil " + id + " actualizado.")
            && |o.store| == |store|
            && forall k :: 0 <= k < |store| ==>
                 o.store[k] == if store[k].id == id then Doc(id, store[k].fields + EditedFields(form, flag)) else store[k])
  {
    PutBodyRead(form, flag);
  }

  /** The edit screen's body, read as a JSON object. */
  lemma PutBodyRead(form: ProfileForm, flag: bool)
    ensures JsonFields(Editing.PutBody(form, flag)) == EditedFields(form, flag)
  {
    var put := Editing.PutBody(form, flag);
    assert put[..0] == [];
    assert forall i :: 0 <= i < 5 ==> put[..i + 1][..i] == put[..i];
    assert JsonFields(put[..1]) == map["nombre" := VStr(form.nombre)];
    assert JsonFields(put[..2]) == JsonFields(put[..1])["apellidos" := VStr(form.apellidos)];
    assert JsonFields(put[..3]) == JsonFields(put[..2])["codigo_estudiante" := VStr(form.codigo_estudiante)];
    assert JsonFields(put[..4]) == JsonFields(put[..3])["correo" := VStr(form.correo)];
    assert put[..5] == put;
  }

  /** The fields the edit screen's body sets. */
  function EditedFields(form: ProfileForm, flag: bool): (m: Fields)
    ensures m.Keys == {"nombre", "apellidos", "codigo_estudiante", "correo", "requisitoriado"}
    ensures forall f :: m[FieldKey(f)] == VStr(FieldValue(form, f))
    ensures m["requisitoriado"] == VBool(flag)
  {
    map["nombre" := VStr(form.nombre), "apellidos" := VStr(form.apellidos),
        "codigo_estudiante" := VStr(form.codigo_estudiante), "correo" := VStr(form.correo),
        "requisitoriado" := VBool(flag)]
  }

  /** After a DELETE, no entry of the profile list carries the deleted id,
      and every other profile is still listed. */
  lemma DeleteThenList(fb: Firebase, store: seq<Doc>, id: string)
    requires fb.db
    ensures forall d :: d in DeleteProfile(fb, store, id).store ==> Projected(d)["id"] != VStr(id)
    ensures forall d :: d in store && d.id != id ==> d in DeleteProfile(fb, store, id).store
  {
  }
}
