/** The register screen: the client-side validation guard, the multipart
    body with its timestamped upload name, and navigation to the list only
    after an OK response. */
module Registration {
  import opened Types
  import opened Text
  import opened Upload
  import Navigation

  /** Line 16: the photo, `nombre` and `codigo_estudiante` are required
      (an empty string is falsy); `apellidos` and `correo` are not. */
  function CanSubmit(image: Option<string>, form: ProfileForm): (ok: bool)
    ensures ok <==> image.Some? && forall f :: f in RequiredFields ==> FieldValue(form, f) != ""
  {
    image.Some? && form.nombre != "" && form.codigo_estudiante != ""
  }

  const RequiredFields: set<FormField> := {Nombre, CodigoEstudiante}

  /** What is typed into `apellidos` or `correo`, including nothing, never
      decides whether the form can be sent; the empty form cannot be. */
  lemma OptionalFieldsFree(image: Option<string>, form: ProfileForm, text: string)
    ensures CanSubmit(image, WithField(form, Apellidos, text)) == CanSubmit(image, form)
    ensures CanSubmit(image, WithField(form, Correo, text)) == CanSubmit(image, form)
    ensures !CanSubmit(image, EmptyForm)
  {
    assert FieldValue(EmptyForm, Nombre) == "";
  }

  /** The multipart body in append order: the photo, the four form fields
      in declaration order, then the flag as a string. */
  function RegisterParts(uri: string, uniqueName: string, form: ProfileForm, flag: bool): (parts: seq<Part>)
    ensures |parts| == |FormFields| + 2
    ensures parts[0] == FilePart("photo", uri, "image/jpeg", uniqueName)
    ensures forall i :: 0 <= i < |FormFields| ==>
      parts[i + 1] == TextPart(FieldKey(FormFields[i]), FieldValue(form, FormFields[i]))
    ensures parts[|FormFields| + 1] == TextPart("requisitoriado", BoolString(flag))
  {
    assert FormFields[0] == Nombre && FormFields[1] == Apellidos;
    assert FormFields[2] == CodigoEstudiante && FormFields[3] == Correo;
    [FilePart("photo", uri, "image/jpeg", uniqueName),
     TextPart("nombre", form.nombre),
     TextPart("apellidos", form.apellidos),
     TextPart("codigo_estudiante", form.codigo_estudiante),
     TextPart("correo", form.correo),
     TextPart("requisitoriado", BoolString(flag))]
  }

  /** Building the `FormData`: one append for the photo, one per form key
      (`Object.keys(formData).forEach`), one for the flag. */
  method BuildRegisterData(uri: string, uniqueName: string, form: ProfileForm, flag: bool)
    returns (data: seq<Part>)
    ensures |data| == 6
    ensures data[0] == FilePart("photo", uri, "image/jpeg", uniqueName)
    ensures forall i :: 0 <= i < |FormFields| ==>
      data[i + 1] == TextPart(FieldKey(FormFields[i]), FieldValue(form, FormFields[i]))
    ensures data[5] == TextPart("requisitoriado", BoolString(flag))
    ensures data == RegisterParts(uri, uniqueName, form, flag)
  {
    data := [FilePart("photo", uri, "image/jpeg", uniqueName)];
    var k := 0;
    while k < |FormFields|
      invariant 0 <= k <= |FormFields|
      invariant |data| == k + 1
      invariant data[0] == FilePart("photo", uri, "image/jpeg", uniqueName)
      invariant forall i :: 0 <= i < k ==>
        data[i + 1] == TextPart(FieldKey(FormFields[i]), FieldValue(form, FormFields[i]))
    {
      data := data + [TextPart(FieldKey(FormFields[k]), FieldValue(form, FormFields[k]))];
      k := k + 1;
    }
    data := data + [TextPart("requisitoriado", BoolString(flag))];
    assert FormFields[0] == Nombre && FormFields[1] == Apellidos;
    assert FormFields[2] == CodigoEstudiante && FormFields[3] == Correo;
  }

  /** What `POST /register` came back with: the parsed body of a response
      (its OK flag, its `error` field and the created profile's name) or a
      thrown error. */
  datatype RegisterReply =
    | RegisterResponded(ok: bool, error: Option<string>, createdNombre: string)
    | RegisterThrew(message: string)

  const IncompleteAlert: Alert := Alert("Campos incompletos", "Nombre, Código y Foto son obligatorios.")

  /** The alert shown once a request was sent. */
  function ReplyAlert(reply: RegisterReply): (a: Alert)
    ensures reply.RegisterResponded? && !reply.ok ==>
      a == Alert("Error de Registro", OrElse(reply.error, "Ocurrió un error."))
    ensures reply.RegisterThrew? ==> a == ConnectionAlert(reply.message)
    ensures a.title == "Éxito" <==> reply.RegisterResponded? && reply.ok
  {
    match reply
    case RegisterResponded(ok, error, nombre) =>
      if ok then Alert("Éxito", "Perfil para " + nombre + " registrado.")
      else Alert("Error de Registro", OrElse(error, "Ocurrió un error."))
    case RegisterThrew(message) => ConnectionAlert(message)
  }

  predicate Succeeded(reply: RegisterReply) { reply.RegisterResponded? && reply.ok }

  class RegisterScreen {
    var image: Option<string>
    var formData: ProfileForm
    var isRequisitoriado: bool
    var alerts: seq<Alert>
    var sent: seq<HttpRequest>

    constructor ()
      ensures image == None && formData == EmptyForm && !isRequisitoriado
      ensures alerts == [] && sent == []
    {
      image := None;
      formData := EmptyForm;
      isRequisitoriado := false;
      alerts := [];
      sent := [];
    }

    /** The picker's callback: `setImage(asset)`; only its URI matters here. */
    method PickImage(uri: string)
      modifies this
      ensures image == Some(uri)
      ensures formData == old(formData) && isRequisitoriado == old(isRequisitoriado)
      ensures alerts == old(alerts) && sent == old(sent)
    {
      image := Some(uri);
    }

    /** A text input's `onChangeText`. */
    method EditField(f: FormField, text: string)
      modifies this
      ensures formData == WithField(old(formData), f, text)
      ensures image == old(image) && isRequisitoriado == old(isRequisitoriado)
      ensures alerts == old(alerts) && sent == old(sent)
    {
      formData := WithField(formData, f, text);
    }

    method SetRequisitoriado(flag: bool)
      modifies this
      ensures isRequisitoriado == flag
      ensures image == old(image) && formData == old(formData)
      ensures alerts == old(alerts) && sent == old(sent)
    {
      isRequisitoriado := flag;
    }

    /** `handleRegister`, with `now` for `Date.now()` and `reply` for what
        the server answers. */
    method HandleRegister(now: nat, reply: RegisterReply, app: Navigation.App)
      modifies this, app
      ensures image == old(image) && formData == old(formData) && isRequisitoriado == old(isRequisitoriado)
      ensures !CanSubmit(image, formData) ==>
        sent == old(sent) && alerts == old(alerts) + [IncompleteAlert] && app.State() == old(app.State())
      ensures CanSubmit(image, formData) ==>
        && sent == old(sent) + [PostMultipart("/register",
             RegisterParts(image.value, UniqueFilename(now, image.value), formData, isRequisitoriado))]
        && alerts == old(alerts) + [ReplyAlert(reply)]
        && app.State() == (if Succeeded(reply)
                           then Navigation.Navigated(old(app.State()), ProfileList, None)
                           else old(app.State()))
    {
      if !CanSubmit(image, formData) {
        alerts := alerts + [IncompleteAlert];
        return;
      }
      var uri := image.value;
      var uniqueFilename := UniqueFilename(now, uri);
      var data := BuildRegisterData(uri, uniqueFilename, formData, isRequisitoriado);
      sent := sent + [PostMultipart("/register", data)];
      alerts := alerts + [ReplyAlert(reply)];
      if Succeeded(reply) {
        app.Navigate(ProfileList, None);
      }
    }
  }
}
