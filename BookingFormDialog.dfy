/** The crew lookup of the booking dialog
    (features/RunningRoom/Bookings/components/BookingFormDialog.tsx): the Fetch
    button looks up the entered crew id and fills three read-only fields
    from the reply, or clears them and shows an error. */
module BookingFormDialog {
  import opened Common

  /** The crew record `/api/crew/{id}` returns; any field may be missing. */
  datatype Crew = Crew(name: Option<string>, designation: Option<string>, crewType: Option<string>)

  /** The crew values of the booking the dialog opens on (its
      `initialData`); each may be missing. */
  datatype CrewFields = CrewFields(
    crewId: Option<string>,
    crewName: Option<string>,
    crewDesignation: Option<string>,
    crewType: Option<string>)

  class CrewLookup {
    /** The form values the lookup reads and writes. */
    var crewId: Option<string>
    var crewName: Option<string>
    var crewDesignation: Option<string>
    var crewType: Option<string>
    var crewError: string
    var fetchingCrew: bool

    /** `useForm({ defaultValues: initialData || ... })` and the effect
        `reset(initialData || {})`: the booking's crew values, or none of
        them for a new booking, whose defaults name no crew field. */
    constructor (initialData: Option<CrewFields>)
      ensures initialData.Some? ==>
        crewId == initialData.value.crewId && crewName == initialData.value.crewName
        && crewDesignation == initialData.value.crewDesignation && crewType == initialData.value.crewType
      ensures initialData.None? ==> crewId == None && crewName == None && crewDesignation == None && crewType == None
      ensures crewError == "" && !fetchingCrew
    {
      if initialData.Some? {
        var d := initialData.value;
        crewId, crewName, crewDesignation, crewType := d.crewId, d.crewName, d.crewDesignation, d.crewType;
      } else {
        crewId, crewName, crewDesignation, crewType := None, None, None, None;
      }
      crewError, fetchingCrew := "", false;
    }

    /** A click on Fetch, up to the request: nothing while a lookup is in
        flight (the button is disabled); without a crew id the error asks
        for one and no request is made; otherwise the error is cleared and a
        lookup starts. */
    method ClickFetch() returns (requested: bool)
      modifies this
      ensures requested <==> !old(fetchingCrew) && IsTruthy(crewId)
      ensures requested ==> fetchingCrew && crewError == ""
      ensures old(fetchingCrew) ==> crewError == old(crewError) && fetchingCrew
      ensures !old(fetchingCrew) && !IsTruthy(crewId) ==>
        crewError == "Please enter a Crew ID first." && !fetchingCrew
      ensures crewId == old(crewId) && crewName == old(crewName)
      ensures crewDesignation == old(crewDesignation) && crewType == old(crewType)
    {
      if fetchingCrew {
        return false;
      }
      if !IsTruthy(crewId) {
        crewError := "Please enter a Crew ID first.";
        return false;
      }
      crewError := "";
      fetchingCrew := true;
      requested := true;
    }

    /** The reply to the lookup: the three fields from the crew, each "" when
        missing; a failure, or an empty body whose fields cannot be read,
        clears them and shows the server's message or "Crew not found.".
        The lookup is over either way. */
    method CompleteFetch(reply: ApiOutcome<Option<Crew>>)
      modifies this
      ensures !fetchingCrew && crewId == old(crewId)
      ensures reply.Ok? && reply.value.Some? ==>
        crewName == Some(OrEmpty(reply.value.value.name))
        && crewDesignation == Some(OrEmpty(reply.value.value.designation))
        && crewType == Some(OrEmpty(reply.value.value.crewType))
        && crewError == old(crewError)
      ensures reply.Ok? && reply.value.None? ==>
        crewName == Some("") && crewDesignation == Some("") && crewType == Some("")
        && crewError == "Crew not found."
      ensures reply.Failed? ==>
        crewName == Some("") && crewDesignation == Some("") && crewType == Some("")
        && crewError == ErrorText(reply.message, "Crew not found.")
    {
      match reply {
        case Ok(Some(crew)) =>
          crewName := Some(OrEmpty(crew.name));
          crewDesignation := Some(OrEmpty(crew.designation));
          crewType := Some(OrEmpty(crew.crewType));
        case Ok(None) =>
          crewError := ErrorText(None, "Crew not found.");
          crewName, crewDesignation, crewType := Some(""), Some(""), Some("");
        case Failed(message) =>
          crewError := ErrorText(message, "Crew not found.");
          crewName, crewDesignation, crewType := Some(""), Some(""), Some("");
      }
      fetchingCrew := false;
    }
  }

  /** A whole lookup from a freshly opened dialog: without a crew id
      nothing is requested and the booking's crew name stays; with one, a
      found crew replaces the fields and leaves no error, and any failure
      leaves the three fields empty and an error. */
  method LookUpCrew(initialData: CrewFields, reply: ApiOutcome<Option<Crew>>)
    returns (requested: bool, crewName: Option<string>, crewError: string, fetching: bool)
    ensures requested <==> IsTruthy(initialData.crewId)
    ensures !fetching
    ensures !requested ==> crewError == "Please enter a Crew ID first." && crewName == initialData.crewName
    ensures requested && reply.Ok? && reply.value.Some? ==>
      crewError == "" && crewName == Some(OrEmpty(reply.value.value.name))
    ensures requested && !(reply.Ok? && reply.value.Some?) ==> crewError != "" && crewName == Some("")
  {
    var dialog := new CrewLookup(Some(initialData));
    requested := dialog.ClickFetch();
    if requested {
      dialog.CompleteFetch(reply);
    }
    crewName, crewError, fetching := dialog.crewName, dialog.crewError, dialog.fetchingCrew;
  }
}
