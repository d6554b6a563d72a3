/** The location administration page (client-side/src/pages/admin/Locations.jsx): a list
    fetched with a search and a category filter, an add/edit modal that submits a
    multipart form, and a confirmed delete. */
module Locations {
  import opened Shared
  import opened Api
  import Query
  import Decimal

  const CategoriesEndpoint := "/location-categories"
  const SavedText := "Data berhasil disimpan!"
  const DeletedText := "Data berhasil dihapus!"

  /** The per-call headers of the submit. */
  const MultipartHeaders: Headers := map["Content-Type" := "multipart/form-data"]

  /** `?search=${search}&category_id=${filterCategory}`, written out by hand: both keys
      always, the values unencoded. */
  function ListQuery(search: string, filterCategory: string): string {
    "?search=" + search + "&category_id=" + filterCategory
  }

  /** Both keys are always sent, empty filters included, and values without `&` split
      back out of the text at the separators. What a server makes of `+`, `%` or `#` in
      the unencoded values is not part of this lemma. */
  lemma ListQueryReadsBack(search: string, filterCategory: string)
    requires '&' !in search && '&' !in filterCategory
    ensures var q := ListQuery(search, filterCategory);
      q[0] == '?' && Query.Parse(q[1..]) == [("search", search), ("category_id", filterCategory)]
  {
    var pairs := [("search", search), ("category_id", filterCategory)];
    var q := ListQuery(search, filterCategory);
    assert q[1..] == Query.Join(pairs);
    Query.ParseJoin(pairs);
  }

  function ListRequest(search: string, filterCategory: string): Request {
    Request(Get, "/locations" + ListQuery(search, filterCategory), NoPayload, map[])
  }

  function CategoriesRequest(): Request {
    Request(Get, CategoriesEndpoint, NoPayload, map[])
  }

  function DeleteRequest(id: int): Request {
    Request(Delete, "/locations/" + Decimal.Show(id), NoPayload, map[])
  }

  /** The `FormData` of the submit, as its entries in order. */
  function LocationForm(title: string, categoryId: string, description: string, address: string,
                        image: Option<FileRef>, isEdit: bool): seq<(string, Part)> {
    [("title", Field(title)), ("category_id", Field(categoryId)),
     ("description", Field(description)), ("address", Field(address))] +
    (if image.Some? then [("image", Attachment(image.value))] else []) +
    (if isEdit then [("_method", Field("PUT"))] else [])
  }

  /** The four text fields are always there, in this order, each under its own key. */
  lemma LocationFormFields(title: string, categoryId: string, description: string, address: string,
                           image: Option<FileRef>, isEdit: bool)
    ensures var f := LocationForm(title, categoryId, description, address, image, isEdit);
      Find(f, "title") == Some(Field(title)) && Find(f, "category_id") == Some(Field(categoryId)) &&
      Find(f, "description") == Some(Field(description)) && Find(f, "address") == Some(Field(address))
  {
    var f := LocationForm(title, categoryId, description, address, image, isEdit);
    FindAt(f, 0);
    FindAt(f, 1);
    FindAt(f, 2);
    FindAt(f, 3);
  }

  /** The image is there only when one is selected, and the `_method=PUT` override only
      in edit mode. */
  lemma LocationFormOptionalParts(title: string, categoryId: string, description: string, address: string,
                                  image: Option<FileRef>, isEdit: bool)
    ensures var f := LocationForm(title, categoryId, description, address, image, isEdit);
      (Find(f, "image").Some? <==> image.Some?) &&
      (image.Some? ==> Find(f, "image") == Some(Attachment(image.value))) &&
      (Find(f, "_method").Some? <==> isEdit) &&
      (isEdit ==> Find(f, "_method") == Some(Field("PUT"))) &&
      |f| == 4 + (if image.Some? then 1 else 0) + (if isEdit then 1 else 0)
  {
    var f := LocationForm(title, categoryId, description, address, image, isEdit);
    var n := if image.Some? then 5 else 4;
    assert forall j :: 0 <= j < 4 ==> f[j].0 != "image" && f[j].0 != "_method";
    if image.Some? {
      assert f[4] == ("image", Attachment(image.value));
      FindAt(f, 4);
    }
    if isEdit {
      assert f[n] == ("_method", Field("PUT"));
      FindAt(f, n);
    }
  }

  /** The submit: always a POST, to the record in edit mode, to the collection otherwise. */
  function SubmitRequest(isEdit: bool, idLocation: Option<int>, form: seq<(string, Part)>): Request {
    Request(Post, if isEdit then "/locations/" + Decimal.IdText(idLocation) else "/locations",
            Multipart(form), MultipartHeaders)
  }

  /** The page's own Content-Type wins over the client default. */
  lemma SubmitSendsMultipart(isEdit: bool, idLocation: Option<int>, form: seq<(string, Part)>, session: Session)
    ensures var s := Stamp(SubmitRequest(isEdit, idLocation, form), session);
      s.headers["Content-Type"] == "multipart/form-data" && s.headers["Accept"] == "application/json"
  {
    var h := DefaultHeaders + MultipartHeaders;
    assert h["Content-Type"] == "multipart/form-data";
  }

  class LocationAdmin {
    const api: Client
    var locations: seq<LocationRow>
    var categories: seq<Category>
    var isLoading: bool
    var showModal: bool
    var isEdit: bool
    var idLocation: Option<int>
    var title: string
    var categoryId: string
    var description: string
    var address: string
    var image: Option<FileRef>
    var previewImage: Option<string>
    var search: string
    var filterCategory: string
    var validation: Errors
    var message: Option<Notice>

    constructor (api: Client)
      ensures this.api == api
      ensures locations == [] && categories == [] && isLoading && !showModal && !isEdit
      ensures idLocation.None? && title == "" && categoryId == "" && description == "" && address == ""
      ensures image.None? && previewImage.None? && search == "" && filterCategory == ""
      ensures validation == map[] && message.None?
    {
      this.api := api;
      locations := [];
      categories := [];
      isLoading := true;
      showModal := false;
      isEdit := false;
      idLocation := None;
      title := "";
      categoryId := "";
      description := "";
      address := "";
      image := None;
      previewImage := None;
      search := "";
      filterCategory := "";
      validation := map[];
      message := None;
    }

    /** `fetchData`: a `success` answer replaces the list; a failure is only logged. */
    method FetchData(answer: Outcome<ListBody<LocationRow>>)
      modifies this`locations, this`isLoading, api
      ensures api.Snapshot() == Exchange(old(api.Snapshot()), ListRequest(search, filterCategory), answer)
      ensures answer.Ok? && SuccessData(answer.body).Some? ==> locations == SuccessData(answer.body).value
      ensures !(answer.Ok? && SuccessData(answer.body).Some?) ==> locations == old(locations)
      ensures !isLoading
    {
      isLoading := true;
      var params := "?search=" + search + "&category_id=" + filterCategory;
      var r := api.Send(Request(Get, "/locations" + params, NoPayload, map[]), answer);
      if r.Ok? {
        var data := SuccessData(r.body);
        if data.Some? {
          locations := data.value;
        }
      }
      isLoading := false;
    }

    /** `fetchCategories`, from the singular `/location-categories` path. */
    method FetchCategories(answer: Outcome<ListBody<Category>>)
      modifies this`categories, api
      ensures api.Snapshot() == Exchange(old(api.Snapshot()), CategoriesRequest(), answer)
      ensures answer.Ok? && SuccessData(answer.body).Some? ==> categories == SuccessData(answer.body).value
      ensures !(answer.Ok? && SuccessData(answer.body).Some?) ==> categories == old(categories)
    {
      var r := api.Send(CategoriesRequest(), answer);
      if r.Ok? {
        var data := SuccessData(r.body);
        if data.Some? {
          categories := data.value;
        }
      }
    }

    /** `handleFileChange` for a picked file; `preview` is the object URL the browser
        makes for it. */
    method HandleFileChange(file: FileRef, preview: string)
      modifies this`image, this`previewImage
      ensures image == Some(file) && previewImage == Some(preview)
    {
      image := Some(file);
      previewImage := Some(preview);
    }

    /** `openAddModal`: every form field back to empty. */
    method OpenAddModal()
      modifies this`isEdit, this`idLocation, this`title, this`categoryId, this`description,
               this`address, this`image, this`previewImage, this`validation, this`showModal
      ensures !isEdit && idLocation.None?
      ensures title == "" && categoryId == "" && description == "" && address == ""
      ensures image.None? && previewImage.None? && validation == map[] && showModal
    {
      isEdit := false;
      idLocation := None;
      title := "";
      categoryId := "";
      description := "";
      address := "";
      image := None;
      previewImage := None;
      validation := map[];
      showModal := true;
    }

    /** `openEditModal(item)`: the form seeded from the row; the old image only as the
        preview. */
    method OpenEditModal(item: LocationRow)
      modifies this`isEdit, this`idLocation, this`title, this`categoryId, this`description,
               this`address, this`image, this`previewImage, this`validation, this`showModal
      ensures isEdit && idLocation == Some(item.id)
      ensures title == item.title && categoryId == item.categoryId
      ensures description == item.description && address == item.address
      ensures previewImage == item.image && image.None? && validation == map[] && showModal
    {
      isEdit := true;
      idLocation := Some(item.id);
      title := item.title;
      categoryId := item.categoryId;
      description := item.description;
      address := item.address;
      previewImage := item.image;
      image := None;
      validation := map[];
      showModal := true;
    }

    /** The `FormData` of `handleSubmit`, appended entry by entry. */
    method FormParts() returns (form: seq<(string, Part)>)
      ensures form == LocationForm(title, categoryId, description, address, image, isEdit)
    {
      form := [];
      form := form + [("title", Field(title))];
      form := form + [("category_id", Field(categoryId))];
      form := form + [("description", Field(description))];
      form := form + [("address", Field(address))];
      if image.Some? {
        form := form + [("image", Attachment(image.value))];
      }
      if isEdit {
        form := form + [("_method", Field("PUT"))];
      }
    }

    /** `handleSubmit`: on success a notice, the modal closed and the list fetched again;
        a 422 fills the validation map and keeps the modal open; any other failure
        changes nothing on the page. */
    method HandleSubmit(answer: Outcome<()>, refetch: Outcome<ListBody<LocationRow>>)
      modifies this`message, this`showModal, this`validation, this`locations, this`isLoading, api
      ensures var sent := Exchange(old(api.Snapshot()),
                SubmitRequest(isEdit, idLocation, LocationForm(title, categoryId, description, address, image, isEdit)),
                answer);
        api.Snapshot() == if answer.Ok? then Exchange(sent, ListRequest(search, filterCategory), refetch) else sent
      ensures answer.Ok? ==>
                message == Some(Notice(Success, SavedText)) && !showModal && !isLoading &&
                validation == old(validation) &&
                locations == (if refetch.Ok? && SuccessData(refetch.body).Some?
                              then SuccessData(refetch.body).value else old(locations))
      ensures answer.HasStatus(422) ==>
                validation == answer.error.errors && showModal == old(showModal) &&
                message == old(message) && locations == old(locations) && isLoading == old(isLoading)
      ensures answer.Failed() && !answer.HasStatus(422) ==>
                validation == old(validation) && showModal == old(showModal) &&
                message == old(message) && locations == old(locations) && isLoading == old(isLoading)
    {
      var form := FormParts();
      var url := if isEdit then "/locations/" + Decimal.IdText(idLocation) else "/locations";
      var r := api.Send(Request(Post, url, Multipart(form), MultipartHeaders), answer);
      if r.Ok? {
        message := Some(Notice(Success, SavedText));
        showModal := false;
        FetchData(refetch);
      } else if r.HttpErr? && r.status == 422 {
        validation := r.error.errors;
      }
    }

    /** `handleDelete`: nothing without confirmation; a failed delete is only logged. */
    method HandleDelete(id: int, confirmed: bool, answer: Outcome<()>, refetch: Outcome<ListBody<LocationRow>>)
      modifies this`message, this`locations, this`isLoading, api
      ensures !confirmed ==> unchanged(this) && unchanged(api)
      ensures confirmed && answer.Failed() ==>
                api.Snapshot() == Exchange(old(api.Snapshot()), DeleteRequest(id), answer) &&
                message == old(message) && locations == old(locations) && isLoading == old(isLoading)
      ensures confirmed && answer.Ok? ==>
                api.Snapshot() == Exchange(Exchange(old(api.Snapshot()), DeleteRequest(id), answer),
                                           ListRequest(search, filterCategory), refetch) &&
                message == Some(Notice(Success, DeletedText)) && !isLoading &&
                locations == (if refetch.Ok? && SuccessData(refetch.body).Some?
                              then SuccessData(refetch.body).value else old(locations))
    {
      if !confirmed {
        return;
      }
      var r := api.Send(DeleteRequest(id), answer);
      if r.Ok? {
        message := Some(Notice(Success, DeletedText));
        FetchData(refetch);
      }
    }
  }
}
