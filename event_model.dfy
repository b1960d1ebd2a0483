/** The event schema: seven required paths, a leading-whitespace setter on
    `name` and `description`, and the casting a value goes through when it is
    written to a path, on creation and on update alike. */
module EventSchema {
  import opened Js

  datatype Event = Event(
    name: string, description: string, category: string,
    date: int,            // time value, milliseconds since the epoch
    venue: string, price: int, image: string)

  /** The schema's paths. Keys of a body outside this list are dropped (strict mode). */
  const Paths: seq<string> := ["name", "description", "category", "date", "venue", "price", "image"]

  /** The `name` and `description` setter `v => v.replace(/^\s+/, '')`; on a
      value that is not a string `v.replace` throws (`None`). */
  function SetText(v: JsValue): (r: Option<string>)
    ensures r.Some? <==> v.Str?
    ensures r.Some? ==> NoLeadingSpace(r.value) && |r.value| <= |v.s| && r.value == v.s[|v.s| - |r.value|..]
    ensures r.Some? ==> forall k :: 0 <= k < |v.s| - |r.value| ==> IsSpace(v.s[k])
  {
    if v.Str? then Some(TrimStart(v.s)) else None
  }

  /** The two setters have run on this record. */
  predicate SettersHold(e: Event)
  {
    NoLeadingSpace(e.name) && NoLeadingSpace(e.description)
  }

  /** `required: true` on the five String paths: the empty string fails it.
      The Number and Date paths always hold a value in this record. */
  predicate Required(e: Event)
  {
    e.name != "" && e.description != "" && e.category != "" && e.venue != "" && e.image != ""
  }

  /** `Event.create(eventData)`: setters and casts, then the required checks;
      `None` when a cast or a validator fails. */
  function NewEvent(name: JsValue, description: JsValue, category: JsValue, date: Option<int>,
                    venue: JsValue, price: int, image: string): (r: Option<Event>)
    ensures r.Some? <==>
      && name.Str? && TrimStart(name.s) != ""
      && description.Str? && TrimStart(description.s) != ""
      && CastText(category).Some? && CastText(category).value != ""
      && CastText(venue).Some? && CastText(venue).value != ""
      && date.Some? && image != ""
    ensures r.Some? ==> Required(r.value) && SettersHold(r.value)
    ensures r.Some? ==>
      && r.value.name == TrimStart(name.s) && r.value.description == TrimStart(description.s)
      && Some(r.value.category) == CastText(category) && Some(r.value.venue) == CastText(venue)
      && r.value.image == image && r.value.price == price && Some(r.value.date) == date
  {
    match (SetText(name), SetText(description), CastText(category), CastText(venue), date)
    case (Some(n), Some(d), Some(cat), Some(v), Some(t)) =>
      var e := Event(n, d, cat, t, v, price, image);
      if Required(e) then Some(e) else None
    case _ => None
  }

  /** The value a path takes in an update: cast from the body when the body has
      the key, the stored value otherwise. */
  function Pick<T>(data: Body, key: string, current: T, cast: JsValue -> Option<T>): Option<T>
  {
    if key in data then cast(data[key]) else Some(current)
  }

  /** `findByIdAndUpdate(id, data)`: each schema path present in `data` is set
      through its setter and cast, every other path keeps its value. No
      validator runs (`runValidators` is off), so `required` is not checked.
      `None` when a setter or a cast fails. */
  function Merge(e: Event, data: Body, c: Coercions): (r: Option<Event>)
    ensures r.Some? ==>
      && ("name" !in data ==> r.value.name == e.name)
      && ("description" !in data ==> r.value.description == e.description)
      && ("category" !in data ==> r.value.category == e.category)
      && ("date" !in data ==> r.value.date == e.date)
      && ("venue" !in data ==> r.value.venue == e.venue)
      && ("price" !in data ==> r.value.price == e.price)
      && ("image" !in data ==> r.value.image == e.image)
    ensures r.Some? ==>
      && ("name" in data ==> SetText(data["name"]) == Some(r.value.name))
      && ("description" in data ==> SetText(data["description"]) == Some(r.value.description))
      && ("category" in data ==> CastText(data["category"]) == Some(r.value.category))
      && ("date" in data ==> c.CastDate(data["date"]) == Some(r.value.date))
      && ("venue" in data ==> CastText(data["venue"]) == Some(r.value.venue))
      && ("price" in data ==> c.CastNumber(data["price"]) == Some(r.value.price))
      && ("image" in data ==> CastText(data["image"]) == Some(r.value.image))
    ensures r.Some? <==>
      && ("name" in data ==> SetText(data["name"]).Some?)
      && ("description" in data ==> SetText(data["description"]).Some?)
      && ("category" in data ==> CastText(data["category"]).Some?)
      && ("date" in data ==> c.CastDate(data["date"]).Some?)
      && ("venue" in data ==> CastText(data["venue"]).Some?)
      && ("price" in data ==> c.CastNumber(data["price"]).Some?)
      && ("image" in data ==> CastText(data["image"]).Some?)
    ensures SettersHold(e) && r.Some? ==> SettersHold(r.value)
  {
    match (Pick(data, "name", e.name, SetText), Pick(data, "description", e.description, SetText),
           Pick(data, "category", e.category, CastText), Pick(data, "date", e.date, c.CastDate),
           Pick(data, "venue", e.venue, CastText), Pick(data, "price", e.price, c.CastNumber),
           Pick(data, "image", e.image, CastText))
    case (Some(n), Some(d), Some(cat), Some(t), Some(v), Some(p), Some(img)) =>
      Some(Event(n, d, cat, t, v, p, img))
    case _ => None
  }

  /** An update whose body names no schema path changes nothing. */
  lemma {:induction false} MergeWithoutPaths(e: Event, data: Body, c: Coercions)
    requires forall p :: p in Paths ==> p !in data
    ensures Merge(e, data, c) == Some(e)
  {
    assert "name" in Paths && "description" in Paths && "category" in Paths && "date" in Paths;
    assert "venue" in Paths && "price" in Paths && "image" in Paths;
  }

  /** Strict mode: a key that is not a schema path is dropped from an update. */
  lemma UnknownKeyDropped(e: Event, data: Body, k: string, v: JsValue, c: Coercions)
    requires k !in Paths
    ensures Merge(e, data[k := v], c) == Merge(e, data, c)
  {
    var d := data[k := v];
    assert Pick(d, "name", e.name, SetText) == Pick(data, "name", e.name, SetText);
    assert Pick(d, "description", e.description, SetText) == Pick(data, "description", e.description, SetText);
    assert Pick(d, "category", e.category, CastText) == Pick(data, "category", e.category, CastText);
    assert Pick(d, "date", e.date, c.CastDate) == Pick(data, "date", e.date, c.CastDate);
    assert Pick(d, "venue", e.venue, CastText) == Pick(data, "venue", e.venue, CastText);
    assert Pick(d, "price", e.price, c.CastNumber) == Pick(data, "price", e.price, c.CastNumber);
    assert Pick(d, "image", e.image, CastText) == Pick(data, "image", e.image, CastText);
  }

  /** The setters strip leading whitespace only: trailing whitespace survives,
      and a second application changes nothing. */
  lemma {:induction false} SetTextKeepsTrailing(s: string, tail: string)
    requires NoLeadingSpace(s) && s != ""
    ensures SetText(Str(s + tail)) == Some(s + tail)
    ensures SetText(Str(TrimStart(s + tail))) == SetText(Str(s + tail))
  {
    assert (s + tail)[0] == s[0];
  }

  /** Running a setter on its own output gives the same text. */
  lemma SetTextIdempotent(v: JsValue)
    ensures SetText(v).Some? ==> SetText(Str(SetText(v).value)) == SetText(v)
  {
    if v.Str? {
      TrimStartIdempotent(v.s);
    }
  }

  /** Because validators do not run on update, an update can leave a required
      path empty: a name of spaces is stripped to "". */
  lemma UpdateCanBlankName(e: Event, c: Coercions)
    ensures Merge(e, map["name" := Str("  ")], c) == Some(e.(name := ""))
    ensures !Required(e.(name := ""))
  {
    var data := map["name" := Str("  ")];
    assert " "[1..] == "" && "  "[1..] == " ";
    assert TrimStart("  ") == "";
    assert Pick(data, "name", e.name, SetText) == Some("");
    assert "description" !in data && "category" !in data && "date" !in data;
    assert "venue" !in data && "price" !in data && "image" !in data;
  }
}
