/** The `/api/events` router. Listing and reading need no token; creating,
    updating and deleting sit behind `protect` and `admin`. Each handler runs
    its checks in order and either answers with an error, leaving the event
    store as it was, or makes exactly one change to it. */
module EventRoutes {
  import opened Js
  import opened Http
  import opened Tokens
  import opened EventSchema
  import opened Database

  /** The fields a new event must carry, in the order the route reports them. */
  const RequiredFields: seq<string> := ["name", "description", "date", "price", "category", "venue", "image"]

  const ImagePrefix: string := "data:image/"

  datatype StoredEvent = StoredEvent(id: Id, event: Event)

  /** `requiredFields.filter(field => !req.body[field])`. */
  function Missing(body: Body): seq<string>
  {
    Filter(RequiredFields, AbsentFrom(body))
  }

  /** A field is reported missing exactly when it is required and falsy in
      the body, and the report keeps the route's order. */
  lemma MissingIff(body: Body, f: string)
    ensures f in Missing(body) <==> f in RequiredFields && !Truthy(Get(body, f))
    ensures IsSubsequence(Missing(body), RequiredFields)
  {
  }

  /** `field => !req.body[field]`. */
  function AbsentFrom(body: Body): string -> bool
  {
    f => !Truthy(Get(body, f))
  }

  /** `body[key]` where the checks already made sure the key is there. */
  function At(body: Body, key: string): JsValue
  {
    if key in body then body[key] else Null
  }

  /** The image check: a truthy image must be a string (`startsWith` throws on
      anything else) that starts with "data:image/". */
  function ImageCheck(body: Body): (r: Option<Error>)
    ensures r.None? <==> !Truthy(Get(body, "image")) || (body["image"].Str? && StartsWith(body["image"].s, ImagePrefix))
    ensures r.Some? ==> r.value in {ServerError, InvalidImage}
  {
    if !Truthy(Get(body, "image")) then None
    else if !body["image"].Str? then Some(ServerError)
    else if !StartsWith(body["image"].s, ImagePrefix) then Some(InvalidImage)
    else None
  }

  /** The image text once the image check has passed. */
  function ImageText(body: Body): string
  {
    match At(body, "image")
    case Str(s) => s
    case _ => ""
  }

  /** `Event.create(eventData)` for a complete body, once the price is a number. */
  function Draft(c: Coercions, body: Body, price: int): (r: Option<Event>)
    ensures r.Some? ==> Required(r.value) && SettersHold(r.value) && r.value.price == price
  {
    NewEvent(At(body, "name"), At(body, "description"), At(body, "category"),
             c.toDate(At(body, "date")), At(body, "venue"), price, ImageText(body))
  }

  /** GET / */
  method ListEvents(db: Db) returns (r: map<Id, Event>)
    ensures r == db.events
  {
    r := db.events;
  }

  /** GET /:id */
  method GetEvent(db: Db, id: Id) returns (r: Response<StoredEvent>)
    ensures id in db.events ==> r == Ok(StoredEvent(id, db.events[id]))
    ensures id !in db.events ==> r == Fail(EventNotFound)
  {
    if id !in db.events {
      return Fail(EventNotFound);
    }
    r := Ok(StoredEvent(id, db.events[id]));
  }

  /** The checks of POST / after the guards, in the route's order, and the
      record `Event.create` makes from a body that passes them. */
  function CreateCheck(c: Coercions, body: Body): (r: Response<Event>)
    ensures Missing(body) != [] ==> r == Fail(Http.MissingFields(Missing(body)))
    ensures Missing(body) == [] && ImageCheck(body).Some? ==> r == Fail(ImageCheck(body).value)
    ensures (&& Missing(body) == [] && ImageCheck(body).None?
             && c.Number(At(body, "price")).None?) ==> r == Fail(InvalidPrice)
    ensures r.Ok? <==>
              && Missing(body) == [] && ImageCheck(body).None? && c.Number(At(body, "price")).Some?
              && Draft(c, body, c.Number(At(body, "price")).value).Some?
    ensures r.Ok? ==>
              && Some(r.value) == Draft(c, body, c.Number(At(body, "price")).value)
              && Required(r.value) && SettersHold(r.value)
              && StartsWith(r.value.image, ImagePrefix)
    ensures At(body, "price").Num? ==> r != Fail(InvalidPrice)
    ensures r.Ok? && At(body, "price").Num? ==> r.value.price == At(body, "price").n
  {
    if Missing(body) != [] then Fail(Http.MissingFields(Missing(body)))
    else if ImageCheck(body).Some? then Fail(ImageCheck(body).value)
    else
      match c.Number(At(body, "price"))
      case None => Fail(InvalidPrice)
      case Some(price) =>
        match Draft(c, body, price)
        case None => Fail(ServerError)   // a setter or a validator of Event.create threw
        case Some(e) =>
          assert "image" in RequiredFields && "image" !in Missing(body);
          Ok(e)
  }

  /** POST /, behind `protect` and `admin`. */
  method CreateEvent(db: Db, svc: Services, bearer: Option<Token>, now: int, body: Body, newId: Id)
    returns (r: Response<StoredEvent>)
    requires db.Valid() && newId !in db.events
    modifies db`events
    ensures db.Valid()
    ensures r.Fail? ==> db.events == old(db.events)
    ensures ProtectAdmin(svc.signer, bearer, now).Fail? ==> r == Fail(ProtectAdmin(svc.signer, bearer, now).error)
    ensures ProtectAdmin(svc.signer, bearer, now).Ok? && CreateCheck(svc.coerce, body).Fail? ==>
              r == Fail(CreateCheck(svc.coerce, body).error)
    ensures r.Ok? <==> ProtectAdmin(svc.signer, bearer, now).Ok? && CreateCheck(svc.coerce, body).Ok?
    ensures r.Ok? ==>
              && r.value == StoredEvent(newId, CreateCheck(svc.coerce, body).value)
              && db.events == old(db.events)[newId := r.value.event]
  {
    var auth := ProtectAdmin(svc.signer, bearer, now);
    if auth.Fail? {
      return Fail(auth.error);
    }
    var checked := CreateCheck(svc.coerce, body);
    if checked.Fail? {
      return Fail(checked.error);
    }
    PutKeepsEventsValid(db.events, newId, checked.value);
    db.events := db.events[newId := checked.value];
    r := Ok(StoredEvent(newId, checked.value));
  }

  /** The update data after the route's own conversions: a truthy price is
      replaced by `Number(price)`, a truthy date by `new Date(date)`. */
  function Converted(c: Coercions, body: Body): (r: Response<Body>)
    ensures r.Ok? ==> r.value.Keys == body.Keys
    ensures r.Ok? ==> forall k :: k in body && k != "price" && k != "date" ==> r.value[k] == body[k]
    ensures Truthy(Get(body, "price")) && c.Number(body["price"]).None? ==> r == Fail(InvalidPrice)
    ensures (&& !(Truthy(Get(body, "price")) && c.Number(body["price"]).None?)
             && Truthy(Get(body, "date")) && c.toDate(body["date"]).None?) ==> r == Fail(ServerError)
    ensures r.Ok? && Truthy(Get(body, "price")) ==> r.value["price"] == Num(c.Number(body["price"]).value)
    ensures r.Ok? && Truthy(Get(body, "date")) ==> r.value["date"] == Num(c.toDate(body["date"]).value)
    ensures r.Ok? && "price" in body && !Truthy(Get(body, "price")) ==> r.value["price"] == body["price"]
    ensures r.Ok? && "date" in body && !Truthy(Get(body, "date")) ==> r.value["date"] == body["date"]
    ensures r.Fail? <==> (|| (Truthy(Get(body, "price")) && c.Number(body["price"]).None?)
                          || (Truthy(Get(body, "date")) && c.toDate(body["date"]).None?))
    ensures "price" in body && body["price"].Num? ==> r != Fail(InvalidPrice)
    ensures r.Ok? && "price" in body && body["price"].Num? ==> r.value["price"] == body["price"]
  {
    var p := if Truthy(Get(body, "price")) then c.Number(body["price"]) else None;
    var t := if Truthy(Get(body, "date")) then c.toDate(body["date"]) else None;
    if Truthy(Get(body, "price")) && p.None? then Fail(InvalidPrice)
    else if Truthy(Get(body, "date")) && t.None? then Fail(ServerError)
    else
      var withPrice := if p.Some? then body["price" := Num(p.value)] else body;
      Ok(if t.Some? then withPrice["date" := Num(t.value)] else withPrice)
  }

  /** PUT /:id, behind `protect` and `admin`. */
  method UpdateEvent(db: Db, svc: Services, bearer: Option<Token>, now: int, id: Id, body: Body)
    returns (r: Response<StoredEvent>)
    requires db.Valid()
    modifies db`events
    ensures db.Valid()
    ensures r.Fail? ==> db.events == old(db.events)
    ensures ProtectAdmin(svc.signer, bearer, now).Fail? ==> r == Fail(ProtectAdmin(svc.signer, bearer, now).error)
    ensures ProtectAdmin(svc.signer, bearer, now).Ok? && id !in old(db.events) ==> r == Fail(EventNotFound)
    ensures ProtectAdmin(svc.signer, bearer, now).Ok? && id in old(db.events) && ImageCheck(body).Some? ==>
              r == Fail(ImageCheck(body).value)
    ensures (&& ProtectAdmin(svc.signer, bearer, now).Ok? && id in old(db.events) && ImageCheck(body).None?
             && Converted(svc.coerce, body).Fail?) ==> r == Fail(Converted(svc.coerce, body).error)
    ensures r.Ok? <==>
              && ProtectAdmin(svc.signer, bearer, now).Ok? && id in old(db.events) && ImageCheck(body).None?
              && Converted(svc.coerce, body).Ok?
              && Merge(old(db.events)[id], Converted(svc.coerce, body).value, svc.coerce).Some?
    ensures r.Ok? ==>
              && r.value.id == id
              && Some(r.value.event) == Merge(old(db.events)[id], Converted(svc.coerce, body).value, svc.coerce)
              && db.events == old(db.events)[id := r.value.event]
    ensures r.Ok? && "price" in body && body["price"].Num? ==> r.value.event.price == body["price"].n
  {
    var auth := ProtectAdmin(svc.signer, bearer, now);
    if auth.Fail? {
      return Fail(auth.error);
    }
    if id !in db.events {
      return Fail(EventNotFound);
    }
    var updateData := body;
    if Truthy(Get(updateData, "image")) {
      if !updateData["image"].Str? {
        return Fail(ServerError);
      }
      if !StartsWith(updateData["image"].s, ImagePrefix) {
        return Fail(InvalidImage);
      }
    }
    if Truthy(Get(updateData, "price")) {
      var price := svc.coerce.Number(updateData["price"]);
      if price.None? {
        return Fail(InvalidPrice);
      }
      updateData := updateData["price" := Num(price.value)];
    }
    if Truthy(Get(updateData, "date")) {
      var date := svc.coerce.toDate(updateData["date"]);
      if date.None? {
        // an Invalid Date fails the cast of the update
        return Fail(ServerError);
      }
      updateData := updateData["date" := Num(date.value)];
    }
    assert updateData == Converted(svc.coerce, body).value;
    var merged := Merge(db.events[id], updateData, svc.coerce);
    if merged.None? {
      return Fail(ServerError);
    }
    PutKeepsEventsValid(db.events, id, merged.value);
    db.events := db.events[id := merged.value];
    r := Ok(StoredEvent(id, merged.value));
  }

  /** A numeric price in an update, as the admin page sends it, reaches the
      stored event unchanged. */
  lemma NumericPriceStored(e: Event, c: Coercions, body: Body)
    requires "price" in body && body["price"].Num?
    ensures Converted(c, body).Ok? && Merge(e, Converted(c, body).value, c).Some? ==>
              Merge(e, Converted(c, body).value, c).value.price == body["price"].n
  {
  }

  /** DELETE /:id, behind `protect` and `admin`. */
  method DeleteEvent(db: Db, svc: Services, bearer: Option<Token>, now: int, id: Id) returns (r: Response<string>)
    requires db.Valid()
    modifies db`events
    ensures db.Valid()
    ensures ProtectAdmin(svc.signer, bearer, now).Fail? ==> r == Fail(ProtectAdmin(svc.signer, bearer, now).error)
    ensures ProtectAdmin(svc.signer, bearer, now).Ok? && id !in old(db.events) ==> r == Fail(EventNotFound)
    ensures r.Ok? <==> ProtectAdmin(svc.signer, bearer, now).Ok? && id in old(db.events)
    ensures r.Ok? ==> r.value == "Event removed successfully." && db.events == old(db.events) - {id}
    ensures r.Fail? ==> db.events == old(db.events)
  {
    var auth := ProtectAdmin(svc.signer, bearer, now);
    if auth.Fail? {
      return Fail(auth.error);
    }
    if id !in db.events {
      return Fail(EventNotFound);
    }
    db.events := db.events - {id};
    r := Ok("Event removed successfully.");
  }

  /** A body with none of the fields (the empty body, say) is refused with
      all seven, in the route's order. */
  lemma NothingGivenMissesAll(body: Body)
    requires forall k :: 0 <= k < |RequiredFields| ==> !Truthy(Get(body, RequiredFields[k]))
    ensures Missing(body) == RequiredFields
  {
    FilterKeepsAll(RequiredFields, AbsentFrom(body));
  }

  /** Keys outside the seven fields play no part in creating an event: the
      record is built from the listed fields only. */
  lemma ExtraKeysIgnored(c: Coercions, body: Body, k: string, v: JsValue)
    requires k !in RequiredFields
    ensures CreateCheck(c, body[k := v]) == CreateCheck(c, body)
  {
    var b := body[k := v];
    MissingIgnoresExtraKeys(body, k, v);
    DraftIgnoresExtraKeys(c, body, k, v);
    assert Get(b, "image") == Get(body, "image");
    assert At(b, "price") == At(body, "price");
  }

  lemma MissingIgnoresExtraKeys(body: Body, k: string, v: JsValue)
    requires k !in RequiredFields
    ensures Missing(body[k := v]) == Missing(body)
  {
    var b := body[k := v];
    forall i | 0 <= i < |RequiredFields| ensures AbsentFrom(b)(RequiredFields[i]) == AbsentFrom(body)(RequiredFields[i]) {
      assert RequiredFields[i] != k;
    }
    FilterCongruent(RequiredFields, AbsentFrom(b), AbsentFrom(body));
  }

  lemma DraftIgnoresExtraKeys(c: Coercions, body: Body, k: string, v: JsValue)
    requires k !in RequiredFields
    ensures forall p :: Draft(c, body[k := v], p) == Draft(c, body, p)
  {
    var b := body[k := v];
    assert At(b, "name") == At(body, "name") && At(b, "description") == At(body, "description");
    assert At(b, "category") == At(body, "category") && At(b, "date") == At(body, "date");
    assert At(b, "venue") == At(body, "venue") && At(b, "image") == At(body, "image");
  }

  /** An update that carries no image is never refused for its image and
      leaves the stored image as it was. */
  lemma UpdateWithoutImageKeepsImage(e: Event, c: Coercions, body: Body)
    requires "image" !in body
    ensures ImageCheck(body).None?
    ensures Converted(c, body).Ok? && Merge(e, Converted(c, body).value, c).Some? ==>
              Merge(e, Converted(c, body).value, c).value.image == e.image
  {
  }

  /** A non-empty image that is not a data URL is refused, whatever else the
      update carries. */
  lemma UpdateRefusesForeignImage(body: Body, s: string)
    requires "image" in body && body["image"] == Str(s) && s != "" && !StartsWith(s, ImagePrefix)
    ensures ImageCheck(body) == Some(InvalidImage)
  {
  }
}
