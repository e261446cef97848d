/** Shared vocabulary of the client: the Profile record, the closed set of
    screen names, the four-field profile form, alerts and the HTTP requests
    the screens issue. */
module Types {

  datatype Option<+T> = None | Some(value: T)

  /** A profile as the client receives it from the backend. */
  datatype Profile = Profile(
    id: string,
    nombre: string,
    apellidos: string,
    codigo_estudiante: string,
    correo: string,
    requisitoriado: bool,
    photo_url: string)

  /** The closed set of screens the navigation controller can show. */
  datatype ScreenName = Analyze | Register | ProfileList | EditProfile

  /** The text fields shared by the Register and Edit forms, in the order in
      which the form object declares them. */
  datatype FormField = Nombre | Apellidos | CodigoEstudiante | Correo

  const FormFields: seq<FormField> := [Nombre, Apellidos, CodigoEstudiante, Correo]

  /** The draft a form screen keeps while the user types. */
  datatype ProfileForm = ProfileForm(
    nombre: string,
    apellidos: string,
    codigo_estudiante: string,
    correo: string)

  const EmptyForm := ProfileForm("", "", "", "")

  /** The wire name of a form field. */
  function FieldKey(f: FormField): (k: string)
    ensures k != "" && k != "photo" && k != "requisitoriado" && k != "id"
  {
    match f
    case Nombre => "nombre"
    case Apellidos => "apellidos"
    case CodigoEstudiante => "codigo_estudiante"
    case Correo => "correo"
  }

  function FieldValue(form: ProfileForm, f: FormField): string
  {
    match f
    case Nombre => form.nombre
    case Apellidos => form.apellidos
    case CodigoEstudiante => form.codigo_estudiante
    case Correo => form.correo
  }

  /** `setFormData({...formData, <field>: text})`: one field replaced. */
  function WithField(form: ProfileForm, f: FormField, text: string): (r: ProfileForm)
    ensures FieldValue(r, f) == text
    ensures forall g :: g != f ==> FieldValue(r, g) == FieldValue(form, g)
  {
    match f
    case Nombre => form.(nombre := text)
    case Apellidos => form.(apellidos := text)
    case CodigoEstudiante => form.(codigo_estudiante := text)
    case Correo => form.(correo := text)
  }

  /** The form fields of a stored profile (the Edit screen's initial draft). */
  function FormOf(p: Profile): (r: ProfileForm)
    ensures FieldValue(r, Nombre) == p.nombre && FieldValue(r, Apellidos) == p.apellidos
    ensures FieldValue(r, CodigoEstudiante) == p.codigo_estudiante && FieldValue(r, Correo) == p.correo
  {
    ProfileForm(p.nombre, p.apellidos, p.codigo_estudiante, p.correo)
  }

  /** A modal alert, recorded as an event: title and message. */
  datatype Alert = Alert(title: string, message: string)

  /** One entry of a multipart body, in the order it was appended. */
  datatype Part =
    | FilePart(name: string, uri: string, mime: string, filename: string)
    | TextPart(name: string, text: string)

  /** A JSON scalar, as the PUT body carries it. */
  datatype Json = JStr(s: string) | JBool(b: bool)

  /** The endpoint of one stored profile. */
  function ProfilePath(id: string): string { "/profiles/" + id }

  /** A request the client sends; paths are relative to the configured
      server URL. */
  datatype HttpRequest =
    | Get(path: string)
    | PostMultipart(path: string, parts: seq<Part>)
    | PutJson(path: string, body: seq<(string, Json)>)
    | Delete(path: string)
}
