/** The product routes (backend/routes/products.js): listing, fetching,
    creating, updating and deleting rows of the `products` table, with the
    seller's `name` and `phone` joined in from the `users` table. The tables
    are the fields of a `Store`; the storage service's upload outcome and the
    store-assigned timestamp are parameters. */
module Products {
  import opened Wrappers
  import opened Schema

  /** A row of the `products` table. `createdAt` is the store-assigned
      timestamp; a missing `image_url` is `None`. */
  datatype Row = Row(
    name: string,
    price: Price,
    description: string,
    imageUrl: Option<string>,
    sellerId: UserId,
    createdAt: int)

  /** The product object the list, get and create routes send. */
  datatype ProductView = ProductView(
    id: ProductId,
    name: string,
    price: Price,
    description: string,
    imageUrl: Option<string>,
    sellerName: string,
    sellerPhone: string,
    sellerId: UserId,
    createdAt: int)

  /** The product object the update route sends: the image is under `image`
      and there is no `sellerId`. */
  datatype UpdatedView = UpdatedView(
    id: ProductId,
    name: string,
    price: Price,
    description: string,
    image: Option<string>,
    sellerName: string,
    sellerPhone: string,
    createdAt: int)

  /** A JSON reply: `success: true` with an optional message and payload, or
      `success: false` with the JSON `message` held in `error`. */
  datatype Reply<T> =
    | Success(status: int, message: Option<string>, data: Option<T>)
    | Failure(status: int, error: string)

  /** The text fields of a multipart request body; `None` when absent. */
  datatype Fields = Fields(name: Option<string>, price: Option<string>, description: Option<string>)

  /** What the storage service did with an uploaded file. */
  datatype StorageOutcome = Stored(publicUrl: string) | StorageFailed(message: string)

  /** A body field is truthy: present and not the empty string. */
  predicate Present(x: Option<string>) {
    x.Some? && x.value != ""
  }

  /** All three fields the create route demands are truthy. */
  predicate Complete(f: Fields) {
    Present(f.name) && Present(f.price) && Present(f.description)
  }

  /** `x || fallback` on a possibly missing string. */
  function OrDefault(x: Option<string>, fallback: string): (r: string)
    ensures Present(x) ==> r == x.value
    ensures !Present(x) ==> r == fallback
    ensures fallback != "" ==> r != ""
  {
    if Present(x) then x.value else fallback
  }

  /** The two `users` columns the routes join in for a product's seller. */
  datatype SellerColumn = NameColumn | PhoneColumn

  function Column(u: UserRow, c: SellerColumn): string {
    match c
    case NameColumn => u.name
    case PhoneColumn => u.phone
  }

  /** What a view shows when the column is missing or empty. */
  function Fallback(c: SellerColumn): string {
    match c
    case NameColumn => "Unknown"
    case PhoneColumn => "N/A"
  }

  /** `product.users?.<column> || <fallback>`: the joined seller's value when
      there is a seller row and the value is non-empty, otherwise the
      column's fallback; never empty. */
  function SellerField(users: map<UserId, UserRow>, sellerId: UserId, c: SellerColumn): (r: string)
    ensures r != ""
    ensures sellerId in users && Column(users[sellerId], c) != "" ==> r == Column(users[sellerId], c)
    ensures !(sellerId in users && Column(users[sellerId], c) != "") ==> r == Fallback(c)
  {
    OrDefault(if sellerId in users then Some(Column(users[sellerId], c)) else None, Fallback(c))
  }

  /** The row-to-view mapping: the row's own fields under their client names,
      and the seller's name and phone, defaulting to `Unknown` and `N/A`. */
  function ViewOf(id: ProductId, row: Row, users: map<UserId, UserRow>): (v: ProductView)
    ensures v.id == id && v.sellerId == row.sellerId && v.createdAt == row.createdAt
    ensures v.name == row.name && v.price == row.price && v.description == row.description
    ensures v.imageUrl == row.imageUrl
    ensures v.sellerName == SellerField(users, row.sellerId, NameColumn) && v.sellerPhone == SellerField(users, row.sellerId, PhoneColumn)
  {
    ProductView(id, row.name, row.price, row.description, row.imageUrl,
      SellerField(users, row.sellerId, NameColumn), SellerField(users, row.sellerId, PhoneColumn), row.sellerId, row.createdAt)
  }

  /** The update route's mapping of the updated row. */
  function UpdatedViewOf(id: ProductId, row: Row, users: map<UserId, UserRow>): (v: UpdatedView)
    ensures v.id == id && v.createdAt == row.createdAt && v.image == row.imageUrl
    ensures v.name == row.name && v.price == row.price && v.description == row.description
    ensures v.sellerName == SellerField(users, row.sellerId, NameColumn) && v.sellerPhone == SellerField(users, row.sellerId, PhoneColumn)
  {
    UpdatedView(id, row.name, row.price, row.description, row.imageUrl,
      SellerField(users, row.sellerId, NameColumn), SellerField(users, row.sellerId, PhoneColumn), row.createdAt)
  }

  /** The image an upload leaves: the new public URL when the storage service
      stored the file, otherwise `current`. */
  function ImageAfter(current: Option<string>, upload: Option<StorageOutcome>): (image: Option<string>)
    ensures upload.Some? && upload.value.Stored? ==> image == Some(upload.value.publicUrl)
    ensures !(upload.Some? && upload.value.Stored?) ==> image == current
  {
    match upload
    case Some(Stored(url)) => Some(url)
    case _ => current
  }

  /** The row the create route inserts: the three fields, the parsed price,
      the uploaded image or none, and the verified caller as seller. */
  function NewRow(f: Fields, upload: Option<StorageOutcome>, caller: UserId, now: int): (row: Row)
    requires Complete(f)
    ensures row.sellerId == caller && row.createdAt == now
    ensures row.name == f.name.value && row.description == f.description.value
    ensures row.price == ParseFloat(f.price.value)
    ensures upload.Some? && upload.value.Stored? ==> row.imageUrl == Some(upload.value.publicUrl)
    ensures !(upload.Some? && upload.value.Stored?) ==> row.imageUrl.None?
  {
    Row(f.name.value, ParseFloat(f.price.value), f.description.value, ImageAfter(None, upload), caller, now)
  }

  /** The partial update: each truthy field replaces the old value, every
      other field keeps it; the image changes only when a new file was
      stored; owner and timestamp are never touched. */
  function Merge(row: Row, f: Fields, upload: Option<StorageOutcome>): (r: Row)
    ensures r.sellerId == row.sellerId && r.createdAt == row.createdAt
    ensures r.name == (if Present(f.name) then f.name.value else row.name)
    ensures r.price == (if Present(f.price) then ParseFloat(f.price.value) else row.price)
    ensures r.description == (if Present(f.description) then f.description.value else row.description)
    ensures r.imageUrl == ImageAfter(row.imageUrl, upload)
  {
    Row(
      OrDefault(f.name, row.name),
      if Present(f.price) then ParseFloat(f.price.value) else row.price,
      OrDefault(f.description, row.description),
      ImageAfter(row.imageUrl, upload),
      row.sellerId,
      row.createdAt)
  }

  /** Applying the same update twice changes nothing more. */
  lemma MergeIdempotent(row: Row, f: Fields, upload: Option<StorageOutcome>)
    ensures Merge(Merge(row, f, upload), f, upload) == Merge(row, f, upload)
  {
  }

  /** An update with no truthy field and no stored file leaves the row as it
      was, which includes an update whose upload failed. */
  lemma MergeNothing(row: Row, f: Fields, upload: Option<StorageOutcome>)
    requires !Present(f.name) && !Present(f.price) && !Present(f.description)
    requires upload.None? || upload.value.StorageFailed?
    ensures Merge(row, f, upload) == row
  {
  }

  /** Views ordered by `created_at`, newest first. */
  ghost predicate NewestFirst(views: seq<ProductView>) {
    forall a, b :: 0 <= a < b < |views| ==> views[a].createdAt >= views[b].createdAt
  }

  /** The ids the views carry. */
  ghost function IdsOf(views: seq<ProductView>): set<ProductId> {
    set k | 0 <= k < |views| :: views[k].id
  }

  /** No id is carried by two views. */
  ghost predicate Distinct(views: seq<ProductView>) {
    forall a, b :: 0 <= a < b < |views| ==> views[a].id != views[b].id
  }

  /** Each view is the mapping of the stored row with its id. */
  ghost predicate Mapped(views: seq<ProductView>, products: map<ProductId, Row>, users: map<UserId, UserRow>) {
    forall k :: 0 <= k < |views| ==>
      views[k].id in products && views[k] == ViewOf(views[k].id, products[views[k].id], users)
  }

  /** `views` holds exactly one view per stored row, each the mapping of that
      row. */
  ghost predicate OneViewPerRow(views: seq<ProductView>, products: map<ProductId, Row>, users: map<UserId, UserRow>) {
    Mapped(views, products, users) && Distinct(views) && IdsOf(views) == products.Keys
  }

  /** Distinct views carry as many ids as there are views, so one view per
      row means as many views as rows. */
  lemma {:induction false} DistinctCount(views: seq<ProductView>)
    requires Distinct(views)
    ensures |IdsOf(views)| == |views|
  {
    if views != [] {
      var init := views[..|views| - 1];
      var last := views[|views| - 1];
      DistinctCount(init);
      assert IdsOf(views) == IdsOf(init) + {last.id} by {
        assert forall k :: 0 <= k < |init| ==> init[k] == views[k];
      }
      assert last.id !in IdsOf(init);
    }
  }

  /** One view per row means as many views as rows. */
  lemma RowCount(views: seq<ProductView>, products: map<ProductId, Row>, users: map<UserId, UserRow>)
    requires OneViewPerRow(views, products, users)
    ensures |views| == |products.Keys|
  {
    DistinctCount(views);
  }

  /** Where a view with timestamp `t` goes in a newest-first list: after
      every view at least as new, before every older one. */
  function InsertionPoint(views: seq<ProductView>, t: int): (p: nat)
    ensures p <= |views|
    ensures forall k :: 0 <= k < p ==> views[k].createdAt >= t
    ensures NewestFirst(views) ==> forall k :: p <= k < |views| ==> views[k].createdAt < t
  {
    if views == [] || views[0].createdAt < t then 0
    else 1 + InsertionPoint(views[1..], t)
  }

  /** `v` placed at its insertion point, the rest of `views` in order around it. */
  function InsertByDate(views: seq<ProductView>, v: ProductView): (r: seq<ProductView>)
    ensures |r| == |views| + 1
    ensures forall k :: 0 <= k < |r| ==>
      r[k] == (if k < InsertionPoint(views, v.createdAt) then views[k]
               else if k == InsertionPoint(views, v.createdAt) then v
               else views[k - 1])
  {
    var p := InsertionPoint(views, v.createdAt);
    views[..p] + [v] + views[p..]
  }

  /** Inserting keeps a list newest first. */
  lemma InsertKeepsOrder(views: seq<ProductView>, v: ProductView)
    requires NewestFirst(views)
    ensures NewestFirst(InsertByDate(views, v))
  {
    var p := InsertionPoint(views, v.createdAt);
    var r := InsertByDate(views, v);
    forall a, b | 0 <= a < b < |r|
      ensures r[a].createdAt >= r[b].createdAt
    {
      if b < p {
        assert r[a] == views[a] && r[b] == views[b];
      } else if b == p {
        assert r[a] == views[a] && r[b] == v;
      } else if a < p {
        assert r[a] == views[a] && r[b] == views[b - 1];
      } else if a == p {
        assert r[a] == v && r[b] == views[b - 1];
      } else {
        assert r[a] == views[a - 1] && r[b] == views[b - 1];
      }
    }
  }

  /** Inserting adds exactly the new view's id. */
  lemma InsertIds(views: seq<ProductView>, v: ProductView)
    ensures IdsOf(InsertByDate(views, v)) == IdsOf(views) + {v.id}
  {
    var p := InsertionPoint(views, v.createdAt);
    var r := InsertByDate(views, v);
    forall id | id in IdsOf(views) + {v.id}
      ensures id in IdsOf(r)
    {
      if id == v.id {
        assert r[p].id == id;
      } else {
        var k :| 0 <= k < |views| && views[k].id == id;
        if k < p {
          assert r[k].id == id;
        } else {
          assert r[k + 1].id == id;
        }
      }
    }
    forall id | id in IdsOf(r)
      ensures id in IdsOf(views) + {v.id}
    {
      var k :| 0 <= k < |r| && r[k].id == id;
      if k < p {
        assert views[k].id == id;
      } else if k > p {
        assert views[k - 1].id == id;
      }
    }
  }

  /** Inserting the mapping of a stored row keeps every view the mapping of
      its row. */
  lemma InsertMapped(views: seq<ProductView>, v: ProductView, products: map<ProductId, Row>, users: map<UserId, UserRow>)
    requires Mapped(views, products, users)
    requires v.id in products && v == ViewOf(v.id, products[v.id], users)
    ensures Mapped(InsertByDate(views, v), products, users)
  {
    var r := InsertByDate(views, v);
    forall k | 0 <= k < |r|
      ensures r[k].id in products && r[k] == ViewOf(r[k].id, products[r[k].id], users)
    {
      var p := InsertionPoint(views, v.createdAt);
      if k < p {
        assert r[k] == views[k];
      } else if k > p {
        assert r[k] == views[k - 1];
      }
    }
  }

  /** Inserting a view with a new id keeps the ids distinct. */
  lemma InsertDistinct(views: seq<ProductView>, v: ProductView)
    requires Distinct(views) && v.id !in IdsOf(views)
    ensures Distinct(InsertByDate(views, v))
  {
    var p := InsertionPoint(views, v.createdAt);
    var r := InsertByDate(views, v);
    forall a, b | 0 <= a < b < |r|
      ensures r[a].id != r[b].id
    {
      if a == p {
        assert views[b - 1].id in IdsOf(views);
      } else if b == p {
        assert views[a].id in IdsOf(views);
      }
    }
  }

  /** The product routes' view of the database: the `products` table, the
      `users` table the seller join reads, and the next id the store will
      assign. */
  class Store {
    var products: map<ProductId, Row>
    var users: map<UserId, UserRow>
    var nextId: nat

    /** Every stored id was assigned before `nextId`. */
    ghost predicate Valid()
      reads this
    {
      forall id :: id in products ==> id < nextId
    }

    constructor (users: map<UserId, UserRow>)
      ensures Valid()
      ensures products == map[] && this.users == users && nextId == 1
    {
      products := map[];
      this.users := users;
      nextId := 1;
    }

    /** `GET /`: every row, mapped to its view, newest first. */
    method List() returns (views: seq<ProductView>)
      ensures OneViewPerRow(views, products, users)
      ensures |views| == |products.Keys|
      ensures NewestFirst(views)
      ensures forall k :: 0 <= k < |views| ==> Get(views[k].id) == Success(200, None, Some(views[k]))
    {
      var remaining := products.Keys;
      views := [];
      while remaining != {}
        invariant remaining <= products.Keys
        invariant Mapped(views, products, users) && Distinct(views)
        invariant IdsOf(views) == products.Keys - remaining
        invariant NewestFirst(views)
        decreases remaining
      {
        var id :| id in remaining;
        var v := ViewOf(id, products[id], users);
        InsertKeepsOrder(views, v);
        InsertMapped(views, v, products, users);
        InsertIds(views, v);
        InsertDistinct(views, v);
        views := InsertByDate(views, v);
        remaining := remaining - {id};
      }
      RowCount(views, products, users);
    }

    /** `GET /:id`: 404 when no row has the id, otherwise that row's view. */
    function Get(id: ProductId): (r: Reply<ProductView>)
      reads this
      ensures r.Failure? <==> id !in products
      ensures r.Failure? ==> r == Failure(404, "Product not found")
      ensures r.Success? ==> r.status == 200 && r.message.None? && r.data.Some?
      ensures r.Success? ==> r.data.value.id == id && r.data.value == ViewOf(id, products[id], users)
    {
      if id in products then Success(200, None, Some(ViewOf(id, products[id], users)))
      else Failure(404, "Product not found")
    }

    /** `POST /` for the verified user `caller`: 400 when a field is missing,
        400 when the image upload fails, 500 when the insert is refused
        because the caller has no `users` row, and otherwise a new row owned
        by the caller under a fresh id, answered with its view. */
    method Create(caller: UserId, f: Fields, upload: Option<StorageOutcome>, now: int) returns (r: Reply<ProductView>)
      requires Valid()
      modifies this
      ensures Valid() && users == old(users)
      ensures !Complete(f) ==>
        r == Failure(400, "Name, price, and description are required")
        && products == old(products) && nextId == old(nextId)
      ensures Complete(f) && upload.Some? && upload.value.StorageFailed? ==>
        r == Failure(400, "Failed to upload image: " + upload.value.message)
        && products == old(products) && nextId == old(nextId)
      ensures Complete(f) && !(upload.Some? && upload.value.StorageFailed?) && caller !in users ==>
        r == Failure(500, "Server error") && products == old(products) && nextId == old(nextId)
      ensures r.Success? <==> Complete(f) && !(upload.Some? && upload.value.StorageFailed?) && caller in users
      ensures r.Success? ==>
        && old(nextId) !in old(products)
        && products == old(products)[old(nextId) := NewRow(f, upload, caller, now)]
        && nextId == old(nextId) + 1
        && r == Success(201, Some("Product created successfully"), Some(ViewOf(old(nextId), products[old(nextId)], users)))
        && Get(old(nextId)) == Success(200, None, r.data)
      ensures forall id :: id in old(products) ==> id in products && products[id] == old(products)[id]
    {
      if !Complete(f) {
        return Failure(400, "Name, price, and description are required");
      }
      if upload.Some? && upload.value.StorageFailed? {
        return Failure(400, "Failed to upload image: " + upload.value.message);
      }
      if caller !in users {
        return Failure(500, "Server error");
      }
      var id := nextId;
      var row := NewRow(f, upload, caller, now);
      products := products[id := row];
      nextId := nextId + 1;
      r := Success(201, Some("Product created successfully"), Some(ViewOf(id, row, users)));
    }

    /** `PUT /:id` for the verified user `caller`: 404 when no row has the
        id, then 403 when the caller does not own it, and otherwise the
        partial update of that one row. */
    method Update(caller: UserId, id: ProductId, f: Fields, upload: Option<StorageOutcome>) returns (r: Reply<UpdatedView>)
      requires Valid()
      modifies this
      ensures Valid() && users == old(users) && nextId == old(nextId)
      ensures id !in old(products) ==> r == Failure(404, "Product not found") && products == old(products)
      ensures id in old(products) && old(products)[id].sellerId != caller ==>
        r == Failure(403, "Not authorized to update this product") && products == old(products)
      ensures r.Success? <==> id in old(products) && old(products)[id].sellerId == caller
      ensures r.Success? ==>
        && products == old(products)[id := Merge(old(products)[id], f, upload)]
        && r == Success(200, Some("Product updated successfully"), Some(UpdatedViewOf(id, products[id], users)))
      ensures products.Keys == old(products).Keys
      ensures forall k :: k in products ==> products[k].sellerId == old(products)[k].sellerId
      ensures forall k :: k in old(products) && old(products)[k].sellerId != caller ==> products[k] == old(products)[k]
    {
      if id !in products {
        return Failure(404, "Product not found");
      }
      var existing := products[id];
      if existing.sellerId != caller {
        return Failure(403, "Not authorized to update this product");
      }
      var row := Merge(existing, f, upload);
      products := products[id := row];
      r := Success(200, Some("Product updated successfully"), Some(UpdatedViewOf(id, row, users)));
    }

    /** `DELETE /:id` for the verified user `caller`: 404 when no row has the
        id, then 403 when the caller does not own it, and otherwise that one
        row is removed. */
    method Delete(caller: UserId, id: ProductId) returns (r: Reply<ProductView>)
      requires Valid()
      modifies this
      ensures Valid() && users == old(users) && nextId == old(nextId)
      ensures id !in old(products) ==> r == Failure(404, "Product not found") && products == old(products)
      ensures id in old(products) && old(products)[id].sellerId != caller ==>
        r == Failure(403, "Not authorized to delete this product") && products == old(products)
      ensures r.Success? <==> id in old(products) && old(products)[id].sellerId == caller
      ensures r.Success? ==> products == old(products) - {id} && r == Success(200, Some("Product deleted successfully"), None)
      ensures forall k :: k in old(products) && k != id ==> k in products && products[k] == old(products)[k]
      ensures forall k :: k in old(products) && old(products)[k].sellerId != caller ==> k in products && products[k] == old(products)[k]
    {
      if id !in products {
        return Failure(404, "Product not found");
      }
      if products[id].sellerId != caller {
        return Failure(403, "Not authorized to delete this product");
      }
      products := products - {id};
      r := Success(200, Some("Product deleted successfully"), None);
    }
  }
}
