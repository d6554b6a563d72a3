/** The category administration page (client-side/src/pages/admin/Categories.jsx): the
    category list, an add/edit modal with a single name field, and a confirmed delete. */
module Categories {
  import opened Shared
  import opened Api
  import Decimal

  const Endpoint := "/locations-categories"

  const LoadFailedText := "Gagal mengambil data kategori."
  const UpdatedText := "Kategori berhasil diperbarui!"
  const AddedText := "Kategori berhasil ditambahkan!"
  const SaveFailedText := "Terjadi kesalahan saat menyimpan data."
  const DeletedText := "Kategori berhasil dihapus!"
  const DeleteFailedText := "Gagal menghapus kategori."

  /** Which body becomes the list: `data.data` of a `success` answer, else a bare
      array; `None` leaves the list as it was. */
  function Accepted<T>(body: ListBody<T>): (r: Option<seq<T>>)
    ensures SuccessData(body).Some? ==> r == SuccessData(body)
    ensures body.BareArray? ==> r == Some(body.items)
    ensures body.Blank? || (body.Envelope? && !body.success) ==> r.None?
    ensures r.Some? ==> SuccessData(body).Some? || body.BareArray?
  {
    match body
    case BareArray(items) => Some(items)
    case _ => SuccessData(body)
  }

  function ListRequest(): Request {
    Request(Get, Endpoint, NoPayload, map[])
  }

  function DeleteRequest(id: int): Request {
    Request(Delete, Endpoint + "/" + Decimal.Show(id), NoPayload, map[])
  }

  /** The save: a PUT to the record in edit mode, a POST to the collection otherwise,
      with the name as the only field of the body. */
  function SaveRequest(isEdit: bool, idCategory: Option<int>, name: string): (r: Request)
    ensures r.verb == Put <==> isEdit
    ensures r.verb == Post <==> !isEdit
    ensures isEdit ==> r.path == Endpoint + "/" + Decimal.IdText(idCategory)
    ensures !isEdit ==> r.path == Endpoint
    ensures r.payload == Json([("name", Text(name))]) && r.headers == map[]
  {
    if isEdit then Request(Put, Endpoint + "/" + Decimal.IdText(idCategory), Json([("name", Text(name))]), map[])
    else Request(Post, Endpoint, Json([("name", Text(name))]), map[])
  }

  /** The notice of a successful save names what was done. */
  function SavedNotice(isEdit: bool): (n: Notice)
    ensures n.tone == Success
    ensures n.text == UpdatedText <==> isEdit
    ensures !isEdit ==> n.text == AddedText
  {
    Notice(Success, if isEdit then UpdatedText else AddedText)
  }

  class CategoryAdmin {
    const api: Client
    var categories: seq<Category>
    var isLoading: bool
    var showModal: bool
    var isEdit: bool
    var idCategory: Option<int>
    var name: string
    var validation: Errors
    var message: Option<Notice>

    constructor (api: Client)
      ensures this.api == api
      ensures categories == [] && isLoading && !showModal && !isEdit
      ensures idCategory.None? && name == "" && validation == map[] && message.None?
    {
      this.api := api;
      categories := [];
      isLoading := true;
      showModal := false;
      isEdit := false;
      idCategory := None;
      name := "";
      validation := map[];
      message := None;
    }

    /** `fetchData`: a failure sets the load-failure notice; loading ends either way. */
    method FetchData(answer: Outcome<ListBody<Category>>)
      modifies this`categories, this`message, this`isLoading, api
      ensures api.Snapshot() == Exchange(old(api.Snapshot()), ListRequest(), answer)
      ensures answer.Ok? ==> categories == Accepted(answer.body).GetOr(old(categories)) && message == old(message)
      ensures answer.Failed() ==> categories == old(categories) && message == Some(Notice(Failure, LoadFailedText))
      ensures !isLoading
    {
      isLoading := true;
      var r := api.Send(ListRequest(), answer);
      if r.Ok? {
        if r.body.Envelope? && r.body.success {
          if r.body.data.Some? {
            categories := r.body.data.value;
          }
        } else if r.body.BareArray? {
          categories := r.body.items;
        }
      } else {
        message := Some(Notice(Failure, LoadFailedText));
      }
      isLoading := false;
    }

    /** `openAddModal`. */
    method OpenAddModal()
      modifies this`isEdit, this`idCategory, this`name, this`validation, this`message, this`showModal
      ensures !isEdit && idCategory.None? && name == "" && validation == map[] && message.None? && showModal
    {
      isEdit := false;
      idCategory := None;
      name := "";
      validation := map[];
      message := None;
      showModal := true;
    }

    /** `openEditModal(item)`. */
    method OpenEditModal(item: Category)
      modifies this`isEdit, this`idCategory, this`name, this`validation, this`message, this`showModal
      ensures isEdit && idCategory == Some(item.id) && name == item.name
      ensures validation == map[] && message.None? && showModal
    {
      isEdit := true;
      idCategory := Some(item.id);
      name := item.name;
      validation := map[];
      message := None;
      showModal := true;
    }

    /** `handleSubmit`: on success the modal closes and the list is fetched again; a
        422 fills the validation map only; any other failure sets the save-failure
        notice and keeps the modal open. */
    method HandleSubmit(answer: Outcome<()>, refetch: Outcome<ListBody<Category>>)
      modifies this`message, this`showModal, this`validation, this`categories, this`isLoading, api
      ensures var sent := Exchange(old(api.Snapshot()), SaveRequest(isEdit, idCategory, name), answer);
        api.Snapshot() == if answer.Ok? then Exchange(sent, ListRequest(), refetch) else sent
      ensures answer.Ok? ==>
                !showModal && !isLoading && validation == old(validation) &&
                (refetch.Ok? ==> message == Some(SavedNotice(isEdit)) &&
                                 categories == Accepted(refetch.body).GetOr(old(categories))) &&
                (refetch.Failed() ==> message == Some(Notice(Failure, LoadFailedText)) &&
                                      categories == old(categories))
      ensures answer.HasStatus(422) ==>
                validation == answer.error.errors && message == old(message) && showModal == old(showModal) &&
                categories == old(categories) && isLoading == old(isLoading)
      ensures answer.Failed() && !answer.HasStatus(422) ==>
                message == Some(Notice(Failure, SaveFailedText)) && validation == old(validation) &&
                showModal == old(showModal) && categories == old(categories) && isLoading == old(isLoading)
    {
      var r: Outcome<()>;
      if isEdit {
        r := api.Send(Request(Put, Endpoint + "/" + Decimal.IdText(idCategory), Json([("name", Text(name))]), map[]), answer);
        if r.Ok? {
          message := Some(Notice(Success, UpdatedText));
        }
      } else {
        r := api.Send(Request(Post, Endpoint, Json([("name", Text(name))]), map[]), answer);
        if r.Ok? {
          message := Some(Notice(Success, AddedText));
        }
      }
      if r.Ok? {
        showModal := false;
        FetchData(refetch);
      } else if r.HttpErr? && r.status == 422 {
        validation := r.error.errors;
      } else {
        message := Some(Notice(Failure, SaveFailedText));
      }
    }

    /** `handleDelete`: nothing without confirmation; the list is fetched again only
        after the delete succeeded. */
    method HandleDelete(id: int, confirmed: bool, answer: Outcome<()>, refetch: Outcome<ListBody<Category>>)
      modifies this`message, this`categories, this`isLoading, api
      ensures !confirmed ==> unchanged(this) && unchanged(api)
      ensures confirmed && answer.Failed() ==>
                api.Snapshot() == Exchange(old(api.Snapshot()), DeleteRequest(id), answer) &&
                message == Some(Notice(Failure, DeleteFailedText)) &&
                categories == old(categories) && isLoading == old(isLoading)
      ensures confirmed && answer.Ok? ==>
                api.Snapshot() == Exchange(Exchange(old(api.Snapshot()), DeleteRequest(id), answer), ListRequest(), refetch) &&
                !isLoading &&
                (refetch.Ok? ==> message == Some(Notice(Success, DeletedText)) &&
                                 categories == Accepted(refetch.body).GetOr(old(categories))) &&
                (refetch.Failed() ==> message == Some(Notice(Failure, LoadFailedText)) &&
                                      categories == old(categories))
    {
      if !confirmed {
        return;
      }
      var r := api.Send(DeleteRequest(id), answer);
      if r.Ok? {
        message := Some(Notice(Success, DeletedText));
        FetchData(refetch);
      } else {
        message := Some(Notice(Failure, DeleteFailedText));
      }
    }
  }
}
