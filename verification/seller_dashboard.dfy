/** The seller's dashboard (mini-marketplace/src/components/SellerDashboard.jsx):
    which products count as the seller's own, the image checks, and the
    product form's state through add, edit, save and delete. The parent's
    save and delete calls are parameters: each handler is handed how the
    awaited call ended. */
module SellerDashboard {
  import opened Wrappers
  import opened Text
  import opened Lists
  import opened Listings
  import UploadMiddleware

  const MaxImageSize: nat := 5 * 1024 * 1024

  /** The chosen file: its size in bytes and its MIME type. */
  datatype ImageFile = ImageFile(size: nat, mimeType: string)

  /** The product form; `image` is `None` until a file passes the checks. */
  datatype ProductForm = ProductForm(name: string, price: string, description: string, category: string, image: Option<ImageFile>)

  datatype FormField = NameInput | PriceInput | DescriptionInput | CategoryInput

  /** The multipart payload a save sends; the image part only when there is
      an image. */
  datatype Payload = Payload(name: string, price: string, description: string, category: string, image: Option<ImageFile>)

  /** What a submit calls: nothing, `onAddProduct`, or `onUpdateProduct` with
      the edited product's id. */
  datatype SaveCall = NoSave | AddCall(payload: Payload) | UpdateCall(id: nat, payload: Payload)

  /** How an awaited parent call ended: it returned, or it threw with a
      message that may be missing or empty. */
  datatype CallOutcome = Returned | Threw(message: Option<string>)

  const EmptyProductForm := ProductForm("", "", "", "", None)

  /** The session's identifiers as `session?.x` reads them: missing when
      there is no session. */
  function SessionEmail(session: Option<ClientUser>): Option<string> {
    if session.Some? then Some(session.value.email) else None
  }

  function SessionName(session: Option<ClientUser>): Option<string> {
    if session.Some? then Some(session.value.name) else None
  }

  function SessionId(session: Option<ClientUser>): Option<string> {
    if session.Some? then Some(session.value.id) else None
  }

  /** The ownership test: the product's seller name is the session's email or
      name, or either seller-id key is the session's id. Missing values are
      compared as JavaScript compares `undefined`: equal to each other. */
  predicate Mine(p: Listing, session: Option<ClientUser>)
    ensures session.None? ==>
      (Mine(p, session) <==> p.sellerName.None? || p.sellerId.None? || p.legacySellerId.None?)
  {
    || p.sellerName == SessionEmail(session)
    || p.sellerName == SessionName(session)
    || p.sellerId == SessionId(session)
    || p.legacySellerId == SessionId(session)
  }

  /** `myProducts`: the order-preserving sub-list of the products the
      ownership test accepts, with a missing list taken as empty. */
  function MyProducts(products: Option<seq<Listing>>, session: Option<ClientUser>): (r: seq<Listing>)
    ensures forall k :: 0 <= k < |r| ==> Mine(r[k], session)
    ensures products.None? ==> r == []
  {
    Filter(products.GetOr([]), p => Mine(p, session))
  }

  /** Every product the test accepts is listed, at a position that keeps the
      original order, and only those. */
  lemma MyProductsSelects(products: seq<Listing>, session: Option<ClientUser>) returns (idx: seq<int>)
    ensures SelectedBy(MyProducts(Some(products), session), products, idx)
    ensures forall i :: 0 <= i < |products| ==> (Mine(products[i], session) <==> i in idx)
  {
    idx := FilterSelects(products, p => Mine(p, session));
  }

  /** The seller-name comparison accepts a product of another seller whose
      display name is the session user's name. */
  lemma SameNameCountsAsMine(p: Listing, u: ClientUser)
    requires p.sellerName == Some(u.name) && p.sellerId != Some(u.id)
    ensures Mine(p, Some(u))
  {
  }

  /** Without a session, any product whose seller name or id is missing
      counts as the seller's own. */
  lemma NoSessionMatchesMissing(p: Listing)
    requires p.sellerName.None? || p.sellerId.None? || p.legacySellerId.None?
    ensures Mine(p, None)
  {
  }

  /** The image checks in order: the size first, then the type. */
  function ImageError(f: ImageFile): (err: Option<string>)
    ensures err.None? <==> f.size <= MaxImageSize && StartsWith(f.mimeType, "image/")
    ensures f.size > MaxImageSize ==> err == Some("Image size must be less than 5MB")
    ensures f.size <= MaxImageSize && !StartsWith(f.mimeType, "image/") ==> err == Some("Please upload a valid image file")
  {
    if f.size > MaxImageSize then Some("Image size must be less than 5MB")
    else if !StartsWith(f.mimeType, "image/") then Some("Please upload a valid image file")
    else None
  }

  /** An image the dashboard accepts is within the upload middleware's size
      limit. */
  lemma AcceptedImageFitsUpload(f: ImageFile)
    requires ImageError(f).None?
    ensures f.size <= UploadMiddleware.MaxFileSize
  {
  }

  /** The payload of the form: the four text fields, and the image part only
      when an image was chosen. */
  function PayloadOf(form: ProductForm): (p: Payload)
    ensures p.name == form.name && p.price == form.price && p.description == form.description
    ensures p.category == form.category && p.image == form.image
  {
    Payload(form.name, form.price, form.description, form.category, form.image)
  }

  /** `x || ''` for a possibly missing string. */
  function OrEmpty(x: Option<string>): (r: string)
    ensures x.Some? ==> r == x.value
    ensures x.None? ==> r == ""
  {
    if x.Some? then x.value else ""
  }

  /** The edit form for a product: its fields, `''` for a missing one, and
      no image. */
  function EditForm(p: Listing): (form: ProductForm)
    ensures form.image.None?
    ensures form.name == OrEmpty(p.name) && form.price == OrEmpty(p.price)
    ensures form.description == OrEmpty(p.description) && form.category == OrEmpty(p.category)
  {
    ProductForm(OrEmpty(p.name), OrEmpty(p.price), OrEmpty(p.description), OrEmpty(p.category), None)
  }

  /** The dashboard's state. */
  class Dashboard {
    var showAddForm: bool
    var editingProduct: Option<Listing>
    var deleteConfirm: Option<nat>
    var form: ProductForm
    var error: string

    constructor ()
      ensures !showAddForm && editingProduct.None? && deleteConfirm.None?
      ensures form == EmptyProductForm && error == ""
    {
      showAddForm := false;
      editingProduct := None;
      deleteConfirm := None;
      form := EmptyProductForm;
      error := "";
    }

    /** The add button. */
    method ShowForm()
      modifies this
      ensures showAddForm
      ensures editingProduct == old(editingProduct) && deleteConfirm == old(deleteConfirm)
      ensures form == old(form) && error == old(error)
    {
      showAddForm := true;
    }

    /** `handleChange`: only the named field changes; the error stays. */
    method HandleChange(field: FormField, value: string)
      modifies this
      ensures showAddForm == old(showAddForm) && editingProduct == old(editingProduct)
      ensures deleteConfirm == old(deleteConfirm) && error == old(error)
      ensures form.image == old(form.image)
      ensures form.name == (if field == NameInput then value else old(form.name))
      ensures form.price == (if field == PriceInput then value else old(form.price))
      ensures form.description == (if field == DescriptionInput then value else old(form.description))
      ensures form.category == (if field == CategoryInput then value else old(form.category))
    {
      match field
      case NameInput => form := form.(name := value);
      case PriceInput => form := form.(price := value);
      case DescriptionInput => form := form.(description := value);
      case CategoryInput => form := form.(category := value);
    }

    /** `handleImageChange`: the error is cleared; a file that fails a check
        sets that check's message and leaves the form alone; a file that
        passes becomes the image and nothing else changes. */
    method HandleImageChange(file: Option<ImageFile>)
      modifies this
      ensures showAddForm == old(showAddForm) && editingProduct == old(editingProduct)
      ensures deleteConfirm == old(deleteConfirm)
      ensures file.None? ==> error == "" && form == old(form)
      ensures file.Some? && ImageError(file.value).Some? ==> error == ImageError(file.value).value && form == old(form)
      ensures file.Some? && ImageError(file.value).None? ==> error == "" && form == old(form).(image := file)
    {
      error := "";
      if file.Some? {
        var err := ImageError(file.value);
        if err.Some? {
          error := err.value;
          return;
        }
        form := form.(image := file);
      }
    }

    /** `handleSubmit`. A new product without an image sets an error and
        calls nothing. Otherwise the payload goes to `onUpdateProduct` when
        editing and to `onAddProduct` when not; once that call returns the
        form is emptied and hidden and the edit ends, and when it throws its
        message (or `Failed to save product`) is shown and the form kept. */
    method HandleSubmit(outcome: CallOutcome) returns (call: SaveCall)
      modifies this
      ensures deleteConfirm == old(deleteConfirm)
      ensures call.NoSave? <==> old(editingProduct).None? && old(form).image.None?
      ensures call.NoSave? ==>
        error == "Please select an image" && form == old(form)
        && showAddForm == old(showAddForm) && editingProduct == old(editingProduct)
      ensures call.AddCall? <==> old(editingProduct).None? && old(form).image.Some?
      ensures call.AddCall? ==> call.payload == PayloadOf(old(form))
      ensures call.UpdateCall? <==> old(editingProduct).Some?
      ensures call.UpdateCall? ==> call.id == old(editingProduct).value.id && call.payload == PayloadOf(old(form))
      ensures !call.NoSave? && outcome == Returned ==>
        form == EmptyProductForm && !showAddForm && editingProduct.None? && error == ""
      ensures !call.NoSave? && outcome.Threw? ==>
        form == old(form) && showAddForm == old(showAddForm) && editingProduct == old(editingProduct)
        && error == (if outcome.message.Some? && outcome.message.value != "" then outcome.message.value
                     else "Failed to save product")
    {
      error := "";
      if editingProduct.None? && form.image.None? {
        error := "Please select an image";
        return NoSave;
      }
      var payload := PayloadOf(form);
      if editingProduct.Some? {
        call := UpdateCall(editingProduct.value.id, payload);
      } else {
        call := AddCall(payload);
      }
      match outcome
      case Returned =>
        if editingProduct.Some? {
          editingProduct := None;
        }
        form := EmptyProductForm;
        showAddForm := false;
      case Threw(m) =>
        error := if m.Some? && m.value != "" then m.value else "Failed to save product";
    }

    /** `handleEdit`: the product becomes the one being edited, the form is
        filled from it and shown, and the error is cleared. */
    method HandleEdit(p: Listing)
      modifies this
      ensures editingProduct == Some(p) && form == EditForm(p) && showAddForm && error == ""
      ensures deleteConfirm == old(deleteConfirm)
    {
      editingProduct := Some(p);
      form := EditForm(p);
      showAddForm := true;
      error := "";
    }

    /** `handleCancelEdit`: no edit, an empty hidden form, no error. */
    method HandleCancelEdit()
      modifies this
      ensures editingProduct.None? && form == EmptyProductForm && !showAddForm && error == ""
      ensures deleteConfirm == old(deleteConfirm)
    {
      editingProduct := None;
      form := EmptyProductForm;
      showAddForm := false;
      error := "";
    }

    /** A product's delete button asks for confirmation. */
    method RequestDelete(id: nat)
      modifies this
      ensures deleteConfirm == Some(id)
      ensures showAddForm == old(showAddForm) && editingProduct == old(editingProduct)
      ensures form == old(form) && error == old(error)
    {
      deleteConfirm := Some(id);
    }

    /** The confirmation's cancel button. */
    method CancelDelete()
      modifies this
      ensures deleteConfirm.None?
      ensures showAddForm == old(showAddForm) && editingProduct == old(editingProduct)
      ensures form == old(form) && error == old(error)
    {
      deleteConfirm := None;
    }

    /** `handleDelete(deleteConfirm)`, behind the confirmation's delete
        button, which is shown only while a delete is pending: it calls
        `onDeleteProduct` with the pending product's id. The confirmation
        closes only when that call returns; when it throws, its message (or
        `Failed to delete product`) is shown and the confirmation stays
        open. The confirmation renders only while `deleteConfirm` is truthy,
        so a pending id 0 would show no button; product ids start at 1, so
        every pending id is positive. */
    method HandleDelete(outcome: CallOutcome) returns (deletedId: nat)
      requires deleteConfirm.Some?
      modifies this
      ensures deletedId == old(deleteConfirm).value
      ensures showAddForm == old(showAddForm) && editingProduct == old(editingProduct) && form == old(form)
      ensures outcome == Returned ==> deleteConfirm.None? && error == old(error)
      ensures outcome.Threw? ==>
        deleteConfirm == old(deleteConfirm)
        && error == (if outcome.message.Some? && outcome.message.value != "" then outcome.message.value
                     else "Failed to delete product")
    {
      deletedId := deleteConfirm.value;
      match outcome
      case Returned =>
        deleteConfirm := None;
      case Threw(m) =>
        error := if m.Some? && m.value != "" then m.value else "Failed to delete product";
    }
  }
}
