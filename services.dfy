/** The service pricing manager on the staff dashboard: a list of services
    fetched from the backend and an edit dialog that is open exactly while a
    service is being edited. Prices are whole numbers (cents). */
module ServiceManager {
  import opened Wrappers

  datatype Service = Service(id: string, name: string, price: int, description: Option<string>)

  /** The dialog's form fields. */
  datatype ServiceForm = ServiceForm(price: int, description: string)

  /** The body of `PUT /api/services/{id}`. */
  datatype SaveRequest = SaveRequest(id: string, price: int, description: string)

  datatype ServicesReply = ServicesOk(list: seq<Service>) | ServicesNotOk | ServicesThrown

  datatype SaveReply = SaveOk | SaveNotOk | SaveThrown

  const SaveFailed: string := "Failed to update service"
  const SaveConnectionError: string := "Connection error"

  /** The form a service opens with: its price, and its description or `""`. */
  function FormFor(s: Service): (f: ServiceForm)
    ensures f.price == s.price
    ensures s.description.Some? ==> f.description == s.description.value
    ensures s.description.None? ==> f.description == ""
  {
    ServiceForm(s.price, s.description.GetOr(""))
  }

  class ServiceManagerPanel {
    var services: seq<Service>
    var loading: bool
    var editService: Option<Service>
    var formData: ServiceForm
    var saving: bool
    var error: string

    constructor ()
      ensures services == [] && loading && editService == None
      ensures formData == ServiceForm(0, "") && !saving && error == ""
    {
      services, loading, editService := [], true, None;
      formData, saving, error := ServiceForm(0, ""), false, "";
    }

    /** The `open` prop of the edit dialog. */
    predicate DialogOpen()
      reads this
    {
      editService.Some?
    }

    /** `fetchServices`, run to completion: only an ok reply replaces the list. */
    method FetchServices(reply: ServicesReply)
      modifies this`services, this`loading
      ensures services == (if reply.ServicesOk? then reply.list else old(services))
      ensures !loading
    {
      loading := true;
      if reply.ServicesOk? {
        services := reply.list;
      }
      loading := false;
    }

    /** `handleEdit(service)`: opens the dialog on `s` with its form. */
    method HandleEdit(s: Service)
      modifies this`editService, this`formData
      ensures editService == Some(s) && DialogOpen()
      ensures formData == FormFor(s)
    {
      editService := Some(s);
      formData := FormFor(s);
    }

    /** The price field's `onChange`. */
    method SetPrice(price: int)
      modifies this`formData
      ensures formData == ServiceForm(price, old(formData.description))
    {
      formData := formData.(price := price);
    }

    /** The description field's `onChange`. */
    method SetDescription(description: string)
      modifies this`formData
      ensures formData == ServiceForm(old(formData.price), description)
    {
      formData := formData.(description := description);
    }

    /** Cancel, or closing the dialog from outside. */
    method Close()
      modifies this`editService
      ensures editService == None && !DialogOpen()
    {
      editService := None;
    }

    /** `handleSave`, run to completion; on success the services are re-fetched,
        and `refetch` is what that fetch comes back with. `request` is the PUT
        sent, if any. */
    method HandleSave(reply: SaveReply, refetch: ServicesReply) returns (request: Option<SaveRequest>)
      modifies this
      ensures formData == old(formData)
      ensures old(editService).None? ==>
        && request == None && services == old(services) && loading == old(loading)
        && editService == old(editService) && saving == old(saving) && error == old(error)
      ensures old(editService).Some? ==>
        && request == Some(SaveRequest(old(editService).value.id, old(formData).price, old(formData).description))
        && !saving
        && (reply.SaveOk? ==>
              && editService == None && error == "" && !loading
              && services == (if refetch.ServicesOk? then refetch.list else old(services)))
        && (!reply.SaveOk? ==>
              && editService == old(editService) && services == old(services) && loading == old(loading)
              && error == (if reply.SaveNotOk? then SaveFailed else SaveConnectionError))
    {
      request := None;
      if editService.None? {
        return;
      }
      saving := true;
      error := "";
      request := Some(SaveRequest(editService.value.id, formData.price, formData.description));
      match reply {
        case SaveOk =>
          editService := None;
          FetchServices(refetch);
        case SaveNotOk =>
          error := SaveFailed;
        case SaveThrown =>
          error := SaveConnectionError;
      }
      saving := false;
    }
  }

  /** Editing then saving successfully closes the dialog; a failed save leaves it
      open on the same service with an error showing. */
  method EditThenSave(s: Service, reply: SaveReply, refetch: ServicesReply)
    returns (open: bool, editing: Option<Service>, error: string, request: Option<SaveRequest>)
    ensures request == Some(SaveRequest(s.id, s.price, s.description.GetOr("")))
    ensures open <==> !reply.SaveOk?
    ensures open ==> editing == Some(s) && error != ""
    ensures !open ==> editing == None && error == ""
  {
    var panel := new ServiceManagerPanel();
    panel.HandleEdit(s);
    request := panel.HandleSave(reply, refetch);
    open, editing, error := panel.DialogOpen(), panel.editService, panel.error;
  }
}
