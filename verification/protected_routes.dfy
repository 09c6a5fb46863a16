/** The protected product routes as the router chains them
    (backend/routes/products.js, lines 98, 190 and 284): the token gate
    first, then the upload middleware for create and update, then the
    handler. A refused file part leaves the chain for the server's error
    handler. */
module ProtectedRoutes {
  import opened Wrappers
  import AuthMiddleware
  import UploadMiddleware
  import Products
  import Server
  import Schema
  import ApiService

  /** Where a protected request ends: stopped by the gate, in the error
      handler after a refused upload, or answered by the route handler. */
  datatype Response<T> =
    | Stopped(gateReply: AuthMiddleware.Reply)
    | ErrorHandled(errorReply: Server.ErrorReply)
    | Routed(routeReply: Products.Reply<T>)

  /** The storage outcome the handler sees: none without a file part. */
  function UploadOf(file: Option<UploadMiddleware.FilePart>, storage: Products.StorageOutcome): (u: Option<Products.StorageOutcome>)
    ensures u.None? <==> file.None?
    ensures u.Some? ==> u.value == storage
  {
    if file.Some? then Some(storage) else None
  }

  /** The file part is refused by the upload middleware. */
  predicate Refused(file: Option<UploadMiddleware.FilePart>) {
    file.Some? && UploadMiddleware.Check(file.value) != UploadMiddleware.Accepted
  }

  /** The error-handler reply for a refused file part. */
  function RefusalReply(file: Option<UploadMiddleware.FilePart>, nodeEnv: Option<string>): (r: Server.ErrorReply)
    requires Refused(file)
    ensures r.status == 500 && !r.success
  {
    Server.RefusedUploadIsServerError(file.value, nodeEnv);
    Server.HandleError(Server.UploadError(UploadMiddleware.Check(file.value)).value, nodeEnv)
  }

  /** `POST /` behind the gate and the upload middleware. A request the gate
      passes with an accepted file part (or none) reaches the handler; the
      table changes only then, and a created row is owned by the verified
      user. */
  method PostProduct(store: Products.Store, authorization: Option<string>,
                     verify: string -> AuthMiddleware.Verification,
                     file: Option<UploadMiddleware.FilePart>, f: Products.Fields,
                     storage: Products.StorageOutcome, now: int, nodeEnv: Option<string>)
    returns (resp: Response<Products.ProductView>)
    requires store.Valid()
    modifies store
    ensures store.Valid() && store.users == old(store.users)
    ensures AuthMiddleware.Gate(authorization, verify).Stop? ==>
      resp == Stopped(AuthMiddleware.Gate(authorization, verify).reply)
      && store.products == old(store.products) && store.nextId == old(store.nextId)
    ensures AuthMiddleware.Gate(authorization, verify).Pass? && Refused(file) ==>
      resp == ErrorHandled(RefusalReply(file, nodeEnv))
      && store.products == old(store.products) && store.nextId == old(store.nextId)
    ensures !(resp.Routed? && resp.routeReply.Success?) ==>
      store.products == old(store.products) && store.nextId == old(store.nextId)
    ensures resp.Routed? && resp.routeReply.Success? ==>
      && AuthMiddleware.Gate(authorization, verify).Pass? && !Refused(file) && Products.Complete(f)
      && store.products == old(store.products)[old(store.nextId) :=
           Products.NewRow(f, UploadOf(file, storage), AuthMiddleware.Gate(authorization, verify).user.id, now)]
    ensures AuthMiddleware.Gate(authorization, verify).Pass? && !Refused(file) ==> resp.Routed?
    ensures AuthMiddleware.Gate(authorization, verify).Pass? && !Refused(file) && !Products.Complete(f) ==>
      resp == Routed(Products.Failure(400, "Name, price, and description are required"))
    ensures (AuthMiddleware.Gate(authorization, verify).Pass? && !Refused(file) && Products.Complete(f)
             && !(file.Some? && storage.StorageFailed?)
             && AuthMiddleware.Gate(authorization, verify).user.id in old(store.users)) ==>
      resp.Routed? && resp.routeReply.Success?
  {
    var decision := AuthMiddleware.Gate(authorization, verify);
    if decision.Stop? {
      return Stopped(decision.reply);
    }
    if Refused(file) {
      return ErrorHandled(RefusalReply(file, nodeEnv));
    }
    var r := store.Create(decision.user.id, f, UploadOf(file, storage), now);
    resp := Routed(r);
  }

  /** `PUT /:id` behind the gate and the upload middleware: a request the
      gate passes with an accepted file part reaches the handler, and only the
      verified owner's row can change, and only that row. */
  method PutProduct(store: Products.Store, authorization: Option<string>,
                    verify: string -> AuthMiddleware.Verification, id: Schema.ProductId,
                    file: Option<UploadMiddleware.FilePart>, f: Products.Fields,
                    storage: Products.StorageOutcome, nodeEnv: Option<string>)
    returns (resp: Response<Products.UpdatedView>)
    requires store.Valid()
    modifies store
    ensures store.Valid() && store.users == old(store.users) && store.nextId == old(store.nextId)
    ensures AuthMiddleware.Gate(authorization, verify).Stop? ==>
      resp == Stopped(AuthMiddleware.Gate(authorization, verify).reply) && store.products == old(store.products)
    ensures AuthMiddleware.Gate(authorization, verify).Pass? && Refused(file) ==>
      resp == ErrorHandled(RefusalReply(file, nodeEnv)) && store.products == old(store.products)
    ensures !(resp.Routed? && resp.routeReply.Success?) ==> store.products == old(store.products)
    ensures resp.Routed? && resp.routeReply.Success? ==>
      && AuthMiddleware.Gate(authorization, verify).Pass? && !Refused(file)
      && id in old(store.products)
      && old(store.products)[id].sellerId == AuthMiddleware.Gate(authorization, verify).user.id
      && store.products == old(store.products)[id := Products.Merge(old(store.products)[id], f, UploadOf(file, storage))]
    ensures AuthMiddleware.Gate(authorization, verify).Pass? && !Refused(file) ==> resp.Routed?
    ensures AuthMiddleware.Gate(authorization, verify).Pass? && !Refused(file) && id !in old(store.products) ==>
      resp == Routed(Products.Failure(404, "Product not found"))
    ensures (AuthMiddleware.Gate(authorization, verify).Pass? && !Refused(file) && id in old(store.products)
             && old(store.products)[id].sellerId != AuthMiddleware.Gate(authorization, verify).user.id) ==>
      resp == Routed(Products.Failure(403, "Not authorized to update this product"))
    ensures (AuthMiddleware.Gate(authorization, verify).Pass? && !Refused(file) && id in old(store.products)
             && old(store.products)[id].sellerId == AuthMiddleware.Gate(authorization, verify).user.id) ==>
      resp.Routed? && resp.routeReply.Success?
  {
    var decision := AuthMiddleware.Gate(authorization, verify);
    if decision.Stop? {
      return Stopped(decision.reply);
    }
    if Refused(file) {
      return ErrorHandled(RefusalReply(file, nodeEnv));
    }
    var r := store.Update(decision.user.id, id, f, UploadOf(file, storage));
    resp := Routed(r);
  }

  /** `DELETE /:id` behind the gate: a request the gate passes reaches the
      handler, and only the verified owner's row can go, and only that row. */
  method DeleteProduct(store: Products.Store, authorization: Option<string>,
                       verify: string -> AuthMiddleware.Verification, id: Schema.ProductId)
    returns (resp: Response<Products.ProductView>)
    requires store.Valid()
    modifies store
    ensures store.Valid() && store.users == old(store.users) && store.nextId == old(store.nextId)
    ensures AuthMiddleware.Gate(authorization, verify).Stop? ==>
      resp == Stopped(AuthMiddleware.Gate(authorization, verify).reply) && store.products == old(store.products)
    ensures !(resp.Routed? && resp.routeReply.Success?) ==> store.products == old(store.products)
    ensures resp.Routed? && resp.routeReply.Success? ==>
      && AuthMiddleware.Gate(authorization, verify).Pass?
      && id in old(store.products)
      && old(store.products)[id].sellerId == AuthMiddleware.Gate(authorization, verify).user.id
      && store.products == old(store.products) - {id}
    ensures AuthMiddleware.Gate(authorization, verify).Pass? ==> resp.Routed?
    ensures AuthMiddleware.Gate(authorization, verify).Pass? && id !in old(store.products) ==>
      resp == Routed(Products.Failure(404, "Product not found"))
    ensures (AuthMiddleware.Gate(authorization, verify).Pass? && id in old(store.products)
             && old(store.products)[id].sellerId != AuthMiddleware.Gate(authorization, verify).user.id) ==>
      resp == Routed(Products.Failure(403, "Not authorized to delete this product"))
    ensures (AuthMiddleware.Gate(authorization, verify).Pass? && id in old(store.products)
             && old(store.products)[id].sellerId == AuthMiddleware.Gate(authorization, verify).user.id) ==>
      resp.Routed? && resp.routeReply.Success?
  {
    var decision := AuthMiddleware.Gate(authorization, verify);
    if decision.Stop? {
      return Stopped(decision.reply);
    }
    var r := store.Delete(decision.user.id, id);
    resp := Routed(r);
  }

  /** A product form sent without a stored token carries `Bearer null`: the
      gate extracts the token `null` and asks the identity provider about
      it, so the request is never refused with the 401 for a missing
      token. */
  lemma NullTokenReachesProvider(header: string, verify: string -> AuthMiddleware.Verification)
    requires header == ApiService.BearerOf(None)
    ensures AuthMiddleware.ExtractToken(Some(header)) == Some("null")
    ensures AuthMiddleware.Gate(Some(header), verify).Pass? <==> verify("null").Verified?
    ensures AuthMiddleware.Gate(Some(header), verify) != AuthMiddleware.Stop(AuthMiddleware.MissingToken)
  {
    var scheme, token := "Bearer", "null";
    assert header == scheme + " " + token;
    AuthMiddleware.AnySchemeWord(scheme, token);
  }
}
