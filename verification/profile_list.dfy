/** The profile list screen: the three-way filter over the fetched profiles,
    the fetch that replaces the list, and the confirmed delete that refreshes
    it. */
module ProfileListing {
  import opened Types
  import opened Text
  import Navigation

  datatype Filter = All | Requisitoriados | NoRequisitoriados

  /** Whether a filter lets a profile through. */
  predicate Admits(f: Filter, p: Profile)
  {
    match f
    case All => true
    case Requisitoriados => p.requisitoriado
    case NoRequisitoriados => !p.requisitoriado
  }

  /** `sub` is `s` with some elements deleted and the rest kept in order. */
  predicate IsSubsequence(sub: seq<Profile>, s: seq<Profile>)
    decreases |s|
  {
    if sub == [] then true
    else if s == [] then false
    else (sub[0] == s[0] && IsSubsequence(sub[1..], s[1..])) || IsSubsequence(sub, s[1..])
  }

  /** `allProfiles.filter(p => p.requisitoriado == flag)`. */
  function WithFlag(ps: seq<Profile>, flag: bool): (r: seq<Profile>)
    ensures forall i :: 0 <= i < |r| ==> r[i].requisitoriado == flag
    ensures forall i :: 0 <= i < |ps| && ps[i].requisitoriado == flag ==> ps[i] in r
    ensures IsSubsequence(r, ps)
    decreases |ps|
  {
    if ps == [] then []
    else if ps[0].requisitoriado == flag then [ps[0]] + WithFlag(ps[1..], flag)
    else WithFlag(ps[1..], flag)
  }

  /** `displayedProfiles`, lines 54 to 58. */
  function Displayed(ps: seq<Profile>, f: Filter): (r: seq<Profile>)
    ensures f == All ==> r == ps
    ensures forall i :: 0 <= i < |r| ==> Admits(f, r[i])
    ensures forall i :: 0 <= i < |ps| && Admits(f, ps[i]) ==> ps[i] in r
    ensures IsSubsequence(r, ps)
  {
    if f == Requisitoriados then WithFlag(ps, true)
    else if f == NoRequisitoriados then WithFlag(ps, false)
    else SubsequenceOfSelf(ps); ps
  }

  lemma {:induction false} SubsequenceOfSelf(ps: seq<Profile>)
    ensures IsSubsequence(ps, ps)
    decreases |ps|
  {
    if ps != [] {
      SubsequenceOfSelf(ps[1..]);
    }
  }

  /** The flagged and the unflagged views split the list: every profile lands
      in exactly one of them, with its multiplicity. */
  lemma {:induction false} FlagPartition(ps: seq<Profile>)
    ensures multiset(WithFlag(ps, true)) + multiset(WithFlag(ps, false)) == multiset(ps)
    ensures |WithFlag(ps, true)| + |WithFlag(ps, false)| == |ps|
    ensures forall p :: !(p in WithFlag(ps, true) && p in WithFlag(ps, false))
    decreases |ps|
  {
    if ps != [] {
      FlagPartition(ps[1..]);
      assert ps == [ps[0]] + ps[1..];
    }
  }

  /** A list whose profiles all carry the flag comes through unchanged. */
  lemma {:induction false} WithFlagKeepsAll(ps: seq<Profile>, flag: bool)
    requires forall i :: 0 <= i < |ps| ==> ps[i].requisitoriado == flag
    ensures WithFlag(ps, flag) == ps
    decreases |ps|
  {
    if ps != [] {
      WithFlagKeepsAll(ps[1..], flag);
    }
  }

  /** Filtering the displayed list again with the same filter is a no-op. */
  lemma FilterIdempotent(ps: seq<Profile>, f: Filter)
    ensures Displayed(Displayed(ps, f), f) == Displayed(ps, f)
  {
    if f == Requisitoriados {
      WithFlagKeepsAll(WithFlag(ps, true), true);
    } else if f == NoRequisitoriados {
      WithFlagKeepsAll(WithFlag(ps, false), false);
    }
  }

  /** What `GET /profiles` came back with, as the fetch handler sees it. */
  datatype ListReply =
    | ListOk(data: seq<Profile>)
    | ListHttpError(status: nat)
    | ListThrew(message: string)

  /** The list after a fetch: the data on success, empty on any failure. */
  function FetchedProfiles(reply: ListReply): (r: seq<Profile>)
    ensures reply.ListOk? ==> r == reply.data
    ensures !reply.ListOk? ==> r == []
  {
    match reply
    case ListOk(data) => data
    case _ => []
  }

  /** The alert a fetch raises: none on success; a non-OK status is thrown as
      "Error del servidor: <status>" and caught like any other failure. */
  function FetchAlerts(reply: ListReply): (r: seq<Alert>)
    ensures reply.ListOk? <==> r == []
    ensures |r| <= 1
    ensures forall a :: a in r ==> a.title == "Error del Servidor"
  {
    match reply
    case ListOk(_) => []
    case ListHttpError(status) => [ConnectionAlert("Error del servidor: " + DecimalString(status))]
    case ListThrew(message) => [ConnectionAlert(message)]
  }

  /** The two options of the delete confirmation dialog. */
  datatype Choice = Cancelar | Eliminar

  /** What `DELETE /profiles/<id>` came back with. */
  datatype DeleteReply =
    | DeleteOk
    | DeleteRejected(error: Option<string>)
    | DeleteThrew(message: string)

  /** The confirmation dialog names the profile to be deleted. */
  function ConfirmDialog(p: Profile): (a: Alert)
    ensures a.title == "Confirmar Eliminación"
    ensures |a.message| > |p.nombre| + |p.apellidos| + 1
    ensures a.message[|a.message| - |p.nombre| - |p.apellidos| - 2..] == p.nombre + " " + p.apellidos + "?"
  {
    var prefix := "¿Estás seguro de que quieres eliminar a ";
    var tail := p.nombre + " " + p.apellidos + "?";
    assert (prefix + tail)[|prefix + tail| - |tail|..] == tail;
    Alert("Confirmar Eliminación", prefix + tail)
  }

  /** The screen's state cells, plus the alerts shown and the requests sent
      so far. */
  class ProfileListScreen {
    var allProfiles: seq<Profile>
    var activeFilter: Filter
    var alerts: seq<Alert>
    var sent: seq<HttpRequest>

    function Shown(): seq<Profile>
      reads this
    {
      Displayed(allProfiles, activeFilter)
    }

    /** Mounting: both cells start afresh and the mount effect fetches once. */
    constructor (initial: ListReply)
      ensures activeFilter == All
      ensures allProfiles == FetchedProfiles(initial)
      ensures alerts == FetchAlerts(initial)
      ensures sent == [Get("/profiles")]
    {
      allProfiles := [];
      activeFilter := All;
      alerts := [];
      sent := [];
      new;
      FetchProfiles(initial);
    }

    /** `fetchProfiles`: replace the list with the response, or empty it. */
    method FetchProfiles(reply: ListReply)
      modifies this
      ensures allProfiles == FetchedProfiles(reply)
      ensures alerts == old(alerts) + FetchAlerts(reply)
      ensures sent == old(sent) + [Get("/profiles")]
      ensures activeFilter == old(activeFilter)
    {
      sent := sent + [Get("/profiles")];
      match reply {
        case ListOk(data) =>
          allProfiles := data;
        case ListHttpError(status) =>
          alerts := alerts + [ConnectionAlert("Error del servidor: " + DecimalString(status))];
          allProfiles := [];
        case ListThrew(message) =>
          alerts := alerts + [ConnectionAlert(message)];
          allProfiles := [];
      }
    }

    /** One of the three filter buttons. */
    method SetFilter(f: Filter)
      modifies this
      ensures activeFilter == f
      ensures allProfiles == old(allProfiles) && alerts == old(alerts) && sent == old(sent)
    {
      activeFilter := f;
    }

    /** `handleDelete`: a confirmation dialog gates the DELETE; only a
        successful delete refreshes the list (with the `refetch` reply). */
    method HandleDelete(profile: Profile, choice: Choice, reply: DeleteReply, refetch: ListReply)
      requires profile in Shown()
      modifies this
      ensures activeFilter == old(activeFilter)
      ensures choice == Cancelar ==>
        sent == old(sent) && allProfiles == old(allProfiles) && alerts == old(alerts) + [ConfirmDialog(profile)]
      ensures choice == Eliminar && reply.DeleteOk? ==>
        && sent == old(sent) + [Delete(ProfilePath(profile.id)), Get("/profiles")]
        && allProfiles == FetchedProfiles(refetch)
        && alerts == old(alerts) + [ConfirmDialog(profile), Alert("Éxito", "Perfil eliminado correctamente.")]
                     + FetchAlerts(refetch)
      ensures choice == Eliminar && reply.DeleteRejected? ==>
        && sent == old(sent) + [Delete(ProfilePath(profile.id))]
        && allProfiles == old(allProfiles)
        && alerts == old(alerts) + [ConfirmDialog(profile),
                                    Alert("Error", OrElse(reply.error, "No se pudo eliminar el perfil."))]
      ensures choice == Eliminar && reply.DeleteThrew? ==>
        && sent == old(sent) + [Delete(ProfilePath(profile.id))]
        && allProfiles == old(allProfiles)
        && alerts == old(alerts) + [ConfirmDialog(profile), ConnectionAlert(reply.message)]
    {
      alerts := alerts + [ConfirmDialog(profile)];
      if choice == Eliminar {
        sent := sent + [Delete(ProfilePath(profile.id))];
        match reply {
          case DeleteOk =>
            alerts := alerts + [Alert("Éxito", "Perfil eliminado correctamente.")];
            FetchProfiles(refetch);
          case DeleteRejected(error) =>
            alerts := alerts + [Alert("Error", OrElse(error, "No se pudo eliminar el perfil."))];
          case DeleteThrew(message) =>
            alerts := alerts + [ConnectionAlert(message)];
        }
      }
    }

    /** The "Editar" action: hand the profile to the shell's edit screen. */
    method EditPressed(profile: Profile, app: Navigation.App)
      requires profile in Shown()
      modifies app
      ensures app.State() == Navigation.Navigated(old(app.State()), EditProfile, Some(profile))
      ensures app.Mounted(EditProfile)
    {
      app.Navigate(EditProfile, Some(profile));
    }
  }
}
