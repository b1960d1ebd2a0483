/** The admin page: the event dialog and its form checks, the image picker,
    the two-step delete, and the role switch of the user table. Each handler
    is one atomic step; the requests it hands to a mutation are returned. */
module AdminPanel {
  import opened Js
  import opened AuthContext

  /** An event as the client lists it; only its id matters to the handlers. */
  datatype ClientEvent = ClientEvent(id: Option<string>)

  /** A user row of the user table. */
  datatype ListedUser = ListedUser(id: string, role: string)

  /** A picked file: its size in bytes and its MIME type. */
  datatype Upload = Upload(size: int, mimeType: string)

  /** The body the dialog sends. */
  datatype EventData = EventData(
    name: string, description: string, date: string, price: int,
    category: string, venue: string, image: Option<string>)

  datatype Request =
    | CreateRequest(data: EventData)
    | UpdateRequest(id: string, data: EventData)
    | DeleteRequest(id: string)
    | RoleRequest(userId: string, role: string)

  const MaxImageSize: int := 5 * 1024 * 1024

  const ImageTypes: seq<string> := ["image/jpeg", "image/jpg", "image/png", "image/gif"]

  /** The fields the dialog requires, in the order its message lists them. */
  const FormFields: seq<string> := ["name", "description", "date", "category", "venue", "price"]

  /** `formData.get(field)`, with `None` for null. */
  function FormGet(form: map<string, string>, field: string): Option<string>
  {
    if field in form then Some(form[field]) else None
  }

  /** The text of a field the required check has found filled in. */
  function Field(form: map<string, string>, field: string): string
  {
    if field in form then form[field] else ""
  }

  /** `field => !formData.get(field)`. */
  function BlankIn(form: map<string, string>): string -> bool
  {
    f => !Present(FormGet(form, f))
  }

  function FormMissing(form: map<string, string>): seq<string>
  {
    Filter(FormFields, BlankIn(form))
  }

  /** A field is listed exactly when the form leaves it blank, in the
      dialog's order. */
  lemma FormMissingIff(form: map<string, string>, f: string)
    ensures f in FormMissing(form) <==> f in FormFields && !Present(FormGet(form, f))
    ensures IsSubsequence(FormMissing(form), FormFields)
  {
  }

  /** The picker's check of a file: the size is checked before the type. */
  function ImageProblem(file: Upload): (msg: Option<string>)
    ensures file.size > MaxImageSize ==> msg == Some("Image size should be less than 5MB")
    ensures file.size <= MaxImageSize && file.mimeType !in ImageTypes ==>
              msg == Some("Please upload a valid image file (JPEG, PNG, or GIF)")
    ensures msg.None? <==> file.size <= MaxImageSize && file.mimeType in ImageTypes
  {
    if file.size > MaxImageSize then Some("Image size should be less than 5MB")
    else if file.mimeType !in ImageTypes then Some("Please upload a valid image file (JPEG, PNG, or GIF)")
    else None
  }

  /** `user.role === 'admin' ? 'user' : 'admin'`. */
  function ToggledRole(role: string): (r: string)
    ensures r == "user" <==> role == "admin"
    ensures r == "admin" <==> role != "admin"
  {
    if role == "admin" then "user" else "admin"
  }

  /** Switching twice gives back a role of the enum; any other role ends as
      "user". */
  lemma ToggleTwice(role: string)
    ensures role == "user" || role == "admin" ==> ToggledRole(ToggledRole(role)) == role
    ensures role != "user" && role != "admin" ==> ToggledRole(ToggledRole(role)) == "user"
  {
  }

  /** `handleRoleToggle`: the request it hands to the role mutation. */
  function RoleToggle(user: ListedUser): (req: Request)
    ensures req.RoleRequest? && req.userId == user.id
    ensures req.role != user.role || (user.role != "user" && user.role != "admin")
    ensures req.role == "user" || req.role == "admin"
  {
    RoleRequest(user.id, ToggledRole(user.role))
  }

  class Panel {
    var openDialog: bool
    var selectedEvent: Option<ClientEvent>
    var imageBase64: Option<string>
    var error: string
    var deleteConfirmOpen: bool
    var eventToDelete: Option<ClientEvent>
    var userError: string

    constructor ()
      ensures !openDialog && selectedEvent.None? && imageBase64.None? && error == ""
      ensures !deleteConfirmOpen && eventToDelete.None? && userError == ""
    {
      openDialog, selectedEvent, imageBase64, error := false, None, None, "";
      deleteConfirmOpen, eventToDelete, userError := false, None, "";
    }

    /** `handleOpenDialog(event?)`: an existing event to edit, or a blank one. */
    method OpenDialog(event: Option<ClientEvent>)
      modifies this`selectedEvent, this`imageBase64, this`openDialog
      ensures selectedEvent == Some(if event.Some? then event.value else ClientEvent(None))
      ensures imageBase64.None? && openDialog
    {
      selectedEvent := Some(if event.Some? then event.value else ClientEvent(None));
      imageBase64 := None;
      openDialog := true;
    }

    /** `handleCloseDialog`, also run when a create or an update succeeds. */
    method CloseDialog()
      modifies this`selectedEvent, this`imageBase64, this`error, this`openDialog
      ensures selectedEvent.None? && imageBase64.None? && error == "" && !openDialog
    {
      selectedEvent := None;
      imageBase64 := None;
      error := "";
      openDialog := false;
    }

    /** `handleDeleteClick`: an event without an id is refused and the
        confirmation stays closed. */
    method DeleteClick(event: ClientEvent)
      modifies this`error, this`eventToDelete, this`deleteConfirmOpen
      ensures !Present(event.id) ==>
                && error == "Cannot delete event: Missing event ID"
                && eventToDelete == old(eventToDelete) && deleteConfirmOpen == old(deleteConfirmOpen)
      ensures Present(event.id) ==> eventToDelete == Some(event) && deleteConfirmOpen && error == old(error)
    {
      if !Present(event.id) {
        error := "Cannot delete event: Missing event ID";
        return;
      }
      eventToDelete := Some(event);
      deleteConfirmOpen := true;
    }

    /** `handleDeleteConfirm`: the delete request for the pending event. */
    method DeleteConfirm() returns (sent: Option<Request>)
      modifies this`error
      ensures (eventToDelete.Some? && Present(eventToDelete.value.id)) ==>
                sent == Some(DeleteRequest(eventToDelete.value.id.value)) && error == old(error)
      ensures !(eventToDelete.Some? && Present(eventToDelete.value.id)) ==>
                sent.None? && error == "Cannot delete event: Missing event ID"
    {
      if eventToDelete.None? || !Present(eventToDelete.value.id) {
        error := "Cannot delete event: Missing event ID";
        return None;
      }
      sent := Some(DeleteRequest(eventToDelete.value.id.value));
    }

    /** The delete mutation's `onSuccess`. */
    method DeleteSucceeded()
      modifies this`deleteConfirmOpen, this`eventToDelete
      ensures !deleteConfirmOpen && eventToDelete.None?
    {
      deleteConfirmOpen := false;
      eventToDelete := None;
    }

    /** The delete mutation's `onError`. */
    method DeleteFailed(message: string)
      modifies this`error
      ensures error == (if message != "" then message else "Failed to delete event. Please try again.")
    {
      error := if message != "" then message else "Failed to delete event. Please try again.";
    }

    /** `handleDeleteCancel`. */
    method DeleteCancel()
      modifies this`deleteConfirmOpen, this`eventToDelete, this`error
      ensures !deleteConfirmOpen && eventToDelete.None? && error == ""
    {
      deleteConfirmOpen := false;
      eventToDelete := None;
      error := "";
    }

    /** `handleImageChange`. `dataUrl` is what reading the file as a data URL
        gives, `None` when the reader fails. */
    method ImageChange(file: Option<Upload>, dataUrl: Option<string>)
      modifies this`error, this`imageBase64
      ensures file.None? ==> error == old(error) && imageBase64 == old(imageBase64)
      ensures file.Some? && ImageProblem(file.value).Some? ==>
                error == ImageProblem(file.value).value && imageBase64 == old(imageBase64)
      ensures file.Some? && ImageProblem(file.value).None? && dataUrl.None? ==>
                error == "Error processing image. Please try again." && imageBase64 == old(imageBase64)
      ensures file.Some? && ImageProblem(file.value).None? && dataUrl.Some? ==>
                error == "" && imageBase64 == dataUrl
    {
      if file.None? {
        return;
      }
      var problem := ImageProblem(file.value);
      if problem.Some? {
        error := problem.value;
        return;
      }
      if dataUrl.None? {
        error := "Error processing image. Please try again.";
        return;
      }
      imageBase64 := dataUrl;
      error := "";
    }

    /** `handleSubmit`. `toNumber` is `Number(...)` (`None` for NaN) and
        `toIso` is `new Date(...).toISOString()` (`None` when it throws). */
    method Submit(form: map<string, string>, toNumber: string -> Option<int>, toIso: string -> Option<string>)
      returns (sent: Option<Request>)
      modifies this`error
      ensures FormMissing(form) != [] ==>
                sent.None? && error == "Please fill in all required fields: " + Join(FormMissing(form), ", ")
      ensures FormMissing(form) == [] && toNumber(Field(form, "price")).None? ==>
                sent.None? && error == "Price must be a valid number"
      ensures FormMissing(form) == [] && toNumber(Field(form, "price")).Some? && toIso(Field(form, "date")).None? ==>
                sent.None? && error == "An error occurred while submitting the form. Please try again."
      ensures sent.Some? ==>
                && FormMissing(form) == [] && error == ""
                && toNumber(Field(form, "price")).Some? && toIso(Field(form, "date")).Some?
                && var data := EventData(Field(form, "name"), Field(form, "description"), toIso(Field(form, "date")).value,
                                         toNumber(Field(form, "price")).value, Field(form, "category"), Field(form, "venue"), None);
                   if selectedEvent.Some? && Present(selectedEvent.value.id) then
                     sent == Some(UpdateRequest(selectedEvent.value.id.value,
                                                data.(image := if Present(imageBase64) then imageBase64 else None)))
                   else
                     Present(imageBase64) && sent == Some(CreateRequest(data.(image := imageBase64)))
      ensures (&& FormMissing(form) == [] && toNumber(Field(form, "price")).Some? && toIso(Field(form, "date")).Some?
               && !(selectedEvent.Some? && Present(selectedEvent.value.id)) && !Present(imageBase64)) ==>
                sent.None? && error == "Please select an image"
      ensures (&& FormMissing(form) == [] && toNumber(Field(form, "price")).Some? && toIso(Field(form, "date")).Some?
               && ((selectedEvent.Some? && Present(selectedEvent.value.id)) || Present(imageBase64))) ==>
                sent.Some?
    {
      error := "";
      var missing := FormMissing(form);
      if |missing| > 0 {
        error := "Please fill in all required fields: " + Join(missing, ", ");
        return None;
      }
      var price := toNumber(Field(form, "price"));
      if price.None? {
        error := "Price must be a valid number";
        return None;
      }
      var date := toIso(Field(form, "date"));
      if date.None? {
        error := "An error occurred while submitting the form. Please try again.";
        return None;
      }
      var eventData := EventData(Field(form, "name"), Field(form, "description"), date.value, price.value,
                                 Field(form, "category"), Field(form, "venue"), None);
      if selectedEvent.Some? && Present(selectedEvent.value.id) {
        if Present(imageBase64) {
          eventData := eventData.(image := imageBase64);
        }
        return Some(UpdateRequest(selectedEvent.value.id.value, eventData));
      }
      if !Present(imageBase64) {
        error := "Please select an image";
        return None;
      }
      eventData := eventData.(image := imageBase64);
      sent := Some(CreateRequest(eventData));
    }

    /** The role mutation's `onError`. */
    method RoleUpdateFailed(message: string)
      modifies this`userError
      ensures userError == (if message != "" then message else "Failed to update user role. Please try again.")
    {
      userError := if message != "" then message else "Failed to update user role. Please try again.";
    }
  }
}
