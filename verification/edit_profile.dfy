/** The edit screen: a draft initialised from the profile being edited, the
    PUT of the draft plus the flag, a loading flag around the request, and
    navigation back to the list on success or on cancel. */
module Editing {
  import opened Types
  import opened Text
  import Navigation

  /** The draft: the four text fields and the flag toggle. */
  datatype Draft = Draft(form: ProfileForm, flag: bool)

  /** Lines 10 to 16: the draft starts as the profile's own values. */
  function InitialDraft(p: Profile): (d: Draft)
    ensures forall f :: FieldValue(d.form, f) == FieldValue(FormOf(p), f)
    ensures d.flag == p.requisitoriado
  {
    Draft(FormOf(p), p.requisitoriado)
  }

  /** One user action on the form: typing into a field or flipping the switch. */
  datatype FormEdit = SetText(field: FormField, text: string) | SetFlag(flag: bool)

  function ApplyEdit(d: Draft, e: FormEdit): (r: Draft)
    ensures e.SetText? ==> r.flag == d.flag && FieldValue(r.form, e.field) == e.text
    ensures e.SetFlag? ==> r == Draft(d.form, e.flag)
    ensures forall f :: !(e.SetText? && e.field == f) ==> FieldValue(r.form, f) == FieldValue(d.form, f)
  {
    match e
    case SetText(f, text) => Draft(WithField(d.form, f, text), d.flag)
    case SetFlag(flag) => Draft(d.form, flag)
  }

  function ApplyEdits(d: Draft, es: seq<FormEdit>): Draft
    decreases |es|
  {
    if es == [] then d else ApplyEdits(ApplyEdit(d, es[0]), es[1..])
  }

  predicate Touches(es: seq<FormEdit>, f: FormField)
  {
    exists i :: 0 <= i < |es| && es[i].SetText? && es[i].field == f
  }

  predicate TogglesFlag(es: seq<FormEdit>)
  {
    exists i :: 0 <= i < |es| && es[i].SetFlag?
  }

  /** A field the user never typed into keeps its starting value, and the
      flag keeps its starting value unless the switch was flipped. */
  lemma {:induction false} UntouchedKept(d: Draft, es: seq<FormEdit>, f: FormField)
    ensures !Touches(es, f) ==> FieldValue(ApplyEdits(d, es).form, f) == FieldValue(d.form, f)
    ensures !TogglesFlag(es) ==> ApplyEdits(d, es).flag == d.flag
    decreases |es|
  {
    if es != [] {
      UntouchedKept(ApplyEdit(d, es[0]), es[1..], f);
      if !Touches(es, f) {
        assert forall i :: 0 <= i < |es[1..]| ==> es[1..][i] == es[i + 1];
      }
      if !TogglesFlag(es) {
        assert forall i :: 0 <= i < |es[1..]| ==> es[1..][i] == es[i + 1];
      }
    }
  }

  /** `JSON.stringify({ ...formData, requisitoriado: isRequisitoriado })`,
      keys in spread order. */
  function PutBody(form: ProfileForm, flag: bool): (body: seq<(string, Json)>)
    ensures |body| == |FormFields| + 1
    ensures forall i :: 0 <= i < |FormFields| ==>
      body[i] == (FieldKey(FormFields[i]), JStr(FieldValue(form, FormFields[i])))
    ensures body[|FormFields|] == ("requisitoriado", JBool(flag))
  {
    assert FormFields[0] == Nombre && FormFields[1] == Apellidos;
    assert FormFields[2] == CodigoEstudiante && FormFields[3] == Correo;
    [("nombre", JStr(form.nombre)),
     ("apellidos", JStr(form.apellidos)),
     ("codigo_estudiante", JStr(form.codigo_estudiante)),
     ("correo", JStr(form.correo)),
     ("requisitoriado", JBool(flag))]
  }

  /** Toggling only the flag and saving sends the profile's own four text
      values unchanged and the new flag. */
  lemma ToggleThenSave(p: Profile, flag: bool)
    ensures PutBody(ApplyEdits(InitialDraft(p), [SetFlag(flag)]).form, ApplyEdits(InitialDraft(p), [SetFlag(flag)]).flag)
      == [("nombre", JStr(p.nombre)), ("apellidos", JStr(p.apellidos)),
          ("codigo_estudiante", JStr(p.codigo_estudiante)), ("correo", JStr(p.correo)),
          ("requisitoriado", JBool(flag))]
  {
    assert [SetFlag(flag)][1..] == [];
  }

  /** What `PUT /profiles/<id>` came back with. */
  datatype UpdateReply = UpdateResponded(ok: bool, error: Option<string>) | UpdateThrew(message: string)

  function UpdateAlert(reply: UpdateReply): (a: Alert)
    ensures a.title == "Éxito" <==> reply.UpdateResponded? && reply.ok
    ensures reply.UpdateResponded? && !reply.ok ==>
      a == Alert("Error", OrElse(reply.error, "No se pudo actualizar el perfil."))
    ensures reply.UpdateThrew? ==> a == ConnectionAlert(reply.message)
  {
    match reply
    case UpdateResponded(ok, error) =>
      if ok then Alert("Éxito", "Perfil actualizado correctamente.")
      else Alert("Error", OrElse(error, "No se pudo actualizar el perfil."))
    case UpdateThrew(message) => ConnectionAlert(message)
  }

  class EditProfileScreen {
    const profile: Profile
    var formData: ProfileForm
    var isRequisitoriado: bool
    var loading: bool
    var alerts: seq<Alert>
    var sent: seq<HttpRequest>

    function Current(): Draft
      reads this
    {
      Draft(formData, isRequisitoriado)
    }

    /** "Guardar Cambios" is disabled while a save is in flight. */
    predicate SaveEnabled()
      reads this
    {
      !loading
    }

    constructor (p: Profile)
      ensures profile == p
      ensures Current() == InitialDraft(p) && !loading
      ensures alerts == [] && sent == []
    {
      profile := p;
      formData := FormOf(p);
      isRequisitoriado := p.requisitoriado;
      loading := false;
      alerts := [];
      sent := [];
    }

    method Edit(e: FormEdit)
      modifies this
      ensures Current() == ApplyEdit(old(Current()), e)
      ensures loading == old(loading) && alerts == old(alerts) && sent == old(sent)
    {
      match e {
        case SetText(f, text) => formData := WithField(formData, f, text);
        case SetFlag(flag) => isRequisitoriado := flag;
      }
    }

    /** The part of `handleUpdate` before the `await`. */
    method BeginUpdate()
      modifies this
      ensures loading && !SaveEnabled()
      ensures Current() == old(Current()) && alerts == old(alerts)
      ensures sent == old(sent) + [PutJson(ProfilePath(profile.id), PutBody(formData, isRequisitoriado))]
    {
      loading := true;
      sent := sent + [PutJson(ProfilePath(profile.id), PutBody(formData, isRequisitoriado))];
    }

    /** The part after the `await`: alert, navigate only on an OK response,
        and in every case clear the loading flag. */
    method FinishUpdate(reply: UpdateReply, app: Navigation.App)
      modifies this, app
      ensures !loading && SaveEnabled()
      ensures Current() == old(Current()) && sent == old(sent)
      ensures alerts == old(alerts) + [UpdateAlert(reply)]
      ensures app.State() == (if reply.UpdateResponded? && reply.ok
                              then Navigation.Navigated(old(app.State()), ProfileList, None)
                              else old(app.State()))
    {
      alerts := alerts + [UpdateAlert(reply)];
      if reply.UpdateResponded? && reply.ok {
        app.Navigate(ProfileList, None);
      }
      loading := false;
    }

    /** `handleUpdate` as a whole. */
    method HandleUpdate(reply: UpdateReply, app: Navigation.App)
      modifies this, app
      ensures !loading && Current() == old(Current())
      ensures sent == old(sent) + [PutJson(ProfilePath(profile.id), PutBody(formData, isRequisitoriado))]
      ensures alerts == old(alerts) + [UpdateAlert(reply)]
      ensures app.State() == (if reply.UpdateResponded? && reply.ok
                              then Navigation.Navigated(old(app.State()), ProfileList, None)
                              else old(app.State()))
    {
      BeginUpdate();
      FinishUpdate(reply, app);
    }

    /** "Cancelar": back to the list, nothing sent. */
    method Cancel(app: Navigation.App)
      modifies app
      ensures app.State() == Navigation.Navigated(old(app.State()), ProfileList, None)
    {
      app.Navigate(ProfileList, None);
    }
  }
}
