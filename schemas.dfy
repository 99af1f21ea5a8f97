/**
 * The stored record shapes (schemas.py): each model's fields, their
 * defaults and their bounds, as decoders from constructor keyword arguments
 * to a validated record or a ValidationError listing the failing fields.
 * Each model is stored in the collection named by its lower-cased class name.
 */
module Schemas {
  import opened Wrappers
  import opened Values

  // ---------------------------------------------------------------- collections

  /** ASCII lower-casing of one character. */
  function LowerChar(c: char): char {
    if 'A' <= c <= 'Z' then (c as int - 'A' as int + 'a' as int) as char else c
  }

  /** The collection a model is stored in: its class name, lower-cased. */
  function CollectionName(className: string): (r: string)
    ensures |r| == |className|
    ensures forall k :: 0 <= k < |r| ==> !('A' <= r[k] <= 'Z')
    ensures forall k :: 0 <= k < |r| ==> LowerChar(r[k]) == LowerChar(className[k])
  {
    seq(|className|, k requires 0 <= k < |className| => LowerChar(className[k]))
  }

  /** The collection names the endpoints use are those of their models. */
  lemma CollectionNames()
    ensures CollectionName("Planner") == "planner"
    ensures CollectionName("Inquiry") == "inquiry"
  {
  }

  // ---------------------------------------------------------------- PackageOption

  /** An offered package: name, price and included features. */
  datatype PackageOption = PackageOption(name: string, price: real, features: seq<string>)

  /** The field constraint of a package: the price is not negative. */
  predicate ValidPackage(p: PackageOption) {
    p.price >= 0.0
  }

  /** A price: a float (or int) that is at least zero. */
  function AsPrice(v: Value): Option<real> {
    match AsFloat(v)
    case Some(r) => if r >= 0.0 then Some(r) else None
    case None => None
  }

  /** `PackageOption(**args)`: `name` and `price` are required, `features` defaults to `[]`. */
  function DecodePackage(args: Fields): (r: Result<PackageOption, Error>)
    ensures r.Ok? ==> ValidPackage(r.value)
    ensures r.Ok? ==> "name" in args && args["name"] == Str(r.value.name)
    ensures r.Ok? ==> "price" in args && AsFloat(args["price"]) == Some(r.value.price)
    ensures r.Ok? ==> if "features" in args then args["features"] == List(StrValues(r.value.features))
                      else r.value.features == []
    ensures r.Err? ==> r.error.ValidationError? && r.error.model == "PackageOption" && r.error.fields != []
  {
    var name := Field(args, "name", None, AsStr);
    var price := Field(args, "price", None, AsPrice);
    var features := Field(args, "features", Some([]), AsStrList);
    if name.Some? && price.Some? && features.Some? then
      var p := PackageOption(name.value, price.value, features.value);
      assert "features" in args ==> args["features"] == List(StrValues(p.features)) by {
        if "features" in args {
          var items := args["features"].items;
          assert StrValues(p.features) == items;
        }
      }
      Ok(p)
    else
      Err(ValidationError("PackageOption",
        Failed("name", name.Some?) + Failed("price", price.Some?) + Failed("features", features.Some?)))
  }

  /** Exactly when a package validates. */
  lemma PackageAccepted(args: Fields)
    ensures DecodePackage(args).Ok? <==>
      && "name" in args && args["name"].Str?
      && "price" in args && AsFloat(args["price"]).Some? && AsFloat(args["price"]).value >= 0.0
      && ("features" in args ==> AsStrList(args["features"]).Some?)
  {
  }

  /** A negative price is rejected, and so is a missing name or price. */
  lemma PackageRejected(args: Fields)
    requires || "name" !in args || "price" !in args
             || AsFloat(args["price"]).None?
             || AsFloat(args["price"]).value < 0.0
    ensures DecodePackage(args).Err?
  {
  }

  /** A package as the keyword arguments that construct it. */
  function PackageArgs(p: PackageOption): Fields {
    map["name" := Str(p.name), "price" := Num(p.price), "features" := List(StrValues(p.features))]
  }

  /** Every valid package is rebuilt from its own fields. */
  lemma PackageRoundTrip(p: PackageOption)
    requires ValidPackage(p)
    ensures DecodePackage(PackageArgs(p)) == Ok(p)
  {
    StrListRoundTrip(p.features);
  }

  /** The packages held by `items`, when every item is a mapping that validates as a package. */
  function PackageItems(items: seq<Value>): (r: Option<seq<PackageOption>>)
    ensures r.Some? <==> forall k :: 0 <= k < |items| ==> items[k].Dict? && DecodePackage(items[k].entries).Ok?
    ensures r.Some? ==> |r.value| == |items|
    ensures r.Some? ==> forall k :: 0 <= k < |items| ==> DecodePackage(items[k].entries) == Ok(r.value[k])
  {
    if items == [] then Some([])
    else if !items[0].Dict? then None
    else match (DecodePackage(items[0].entries), PackageItems(items[1..]))
      case (Ok(p), Some(rest)) => Some([p] + rest)
      case _ => None
  }

  /** A `List[PackageOption]` field: a list of mappings, each a valid package. */
  function AsPackages(v: Value): Option<seq<PackageOption>> {
    if v.List? then PackageItems(v.items) else None
  }

  /** Packages as a stored list of mappings. */
  function PackageValues(ps: seq<PackageOption>): seq<Value> {
    seq(|ps|, k requires 0 <= k < |ps| => Dict(PackageArgs(ps[k])))
  }

  /** A list of valid packages, stored, validates back to itself, in order. */
  lemma PackageListRoundTrip(ps: seq<PackageOption>)
    requires forall k :: 0 <= k < |ps| ==> ValidPackage(ps[k])
    ensures PackageItems(PackageValues(ps)) == Some(ps)
  {
    var items := PackageValues(ps);
    forall k | 0 <= k < |ps|
      ensures items[k].Dict? && DecodePackage(items[k].entries) == Ok(ps[k])
    {
      PackageRoundTrip(ps[k]);
    }
    var r := PackageItems(items);
    assert r.value == ps;
  }

  // ---------------------------------------------------------------- Planner

  /** A wedding planner as stored. */
  datatype Planner = Planner(
    name: string,
    tagline: Option<string>,
    location: string,
    rating: real,
    reviewsCount: int,
    specialties: seq<string>,
    imageUrl: Option<string>,
    packages: seq<PackageOption>,
    instagram: Option<string>,
    website: Option<string>)

  /** The field constraints of a planner. */
  predicate ValidPlanner(p: Planner) {
    && 0.0 <= p.rating <= 5.0
    && p.reviewsCount >= 0
    && forall k :: 0 <= k < |p.packages| ==> ValidPackage(p.packages[k])
  }

  /** A rating: a float (or int) in [0, 5]. */
  function AsRating(v: Value): Option<real> {
    match AsFloat(v)
    case Some(r) => if 0.0 <= r <= 5.0 then Some(r) else None
    case None => None
  }

  /** A review count: an int that is at least zero. */
  function AsCount(v: Value): Option<int> {
    match AsInt(v)
    case Some(n) => if n >= 0 then Some(n) else None
    case None => None
  }

  /**
   * `Planner(**args)`: `name` and `location` are required; `rating` defaults
   * to 5.0, `reviews_count` to 0, `specialties` and `packages` to `[]`, the
   * other optional strings to None.
   */
  function DecodePlanner(args: Fields): (r: Result<Planner, Error>)
    ensures r.Ok? ==> ValidPlanner(r.value)
    ensures r.Ok? ==> "name" in args && args["name"] == Str(r.value.name)
    ensures r.Ok? ==> "location" in args && args["location"] == Str(r.value.location)
    ensures r.Ok? ==> "rating" !in args ==> r.value.rating == 5.0
    ensures r.Ok? ==> "reviews_count" !in args ==> r.value.reviewsCount == 0
    ensures r.Ok? ==> "specialties" !in args ==> r.value.specialties == []
    ensures r.Ok? ==> "packages" !in args ==> r.value.packages == []
    ensures r.Ok? ==> "tagline" !in args ==> r.value.tagline == None
    ensures r.Ok? ==> "image_url" !in args ==> r.value.imageUrl == None
    ensures r.Ok? ==> "instagram" !in args ==> r.value.instagram == None
    ensures r.Ok? ==> "website" !in args ==> r.value.website == None
    ensures r.Err? ==> r.error.ValidationError? && r.error.model == "Planner" && r.error.fields != []
  {
    var name := Field(args, "name", None, AsStr);
    var tagline := Field(args, "tagline", Some(None), AsOptStr);
    var location := Field(args, "location", None, AsStr);
    var rating := Field(args, "rating", Some(5.0), AsRating);
    var reviewsCount := Field(args, "reviews_count", Some(0), AsCount);
    var specialties := Field(args, "specialties", Some([]), AsStrList);
    var imageUrl := Field(args, "image_url", Some(None), AsOptStr);
    var packages := Field(args, "packages", Some([]), AsPackages);
    var instagram := Field(args, "instagram", Some(None), AsOptStr);
    var website := Field(args, "website", Some(None), AsOptStr);
    if && name.Some? && tagline.Some? && location.Some? && rating.Some? && reviewsCount.Some?
       && specialties.Some? && imageUrl.Some? && packages.Some? && instagram.Some? && website.Some?
    then
      Ok(Planner(name.value, tagline.value, location.value, rating.value, reviewsCount.value,
                 specialties.value, imageUrl.value, packages.value, instagram.value, website.value))
    else
      Err(ValidationError("Planner",
        Failed("name", name.Some?) + Failed("tagline", tagline.Some?) + Failed("location", location.Some?)
        + Failed("rating", rating.Some?) + Failed("reviews_count", reviewsCount.Some?)
        + Failed("specialties", specialties.Some?) + Failed("image_url", imageUrl.Some?)
        + Failed("packages", packages.Some?) + Failed("instagram", instagram.Some?)
        + Failed("website", website.Some?)))
  }

  /** A planner given only its name and location takes every default. */
  lemma PlannerDefaults(name: string, location: string)
    ensures DecodePlanner(map["name" := Str(name), "location" := Str(location)])
         == Ok(Planner(name, None, location, 5.0, 0, [], None, [], None, None))
  {
  }

  /**
   * A rating outside [0, 5], a negative review count, a `packages` value that
   * is not a list, or a package item that is not a mapping or does not
   * validate makes the planner invalid.
   */
  lemma PlannerRejected(args: Fields)
    requires || ("rating" in args && AsFloat(args["rating"]).Some?
                 && !(0.0 <= AsFloat(args["rating"]).value <= 5.0))
             || ("reviews_count" in args && args["reviews_count"].Int? && args["reviews_count"].i < 0)
             || ("packages" in args && !args["packages"].List?)
             || ("packages" in args && args["packages"].List?
                 && exists k :: 0 <= k < |args["packages"].items|
                      && !(args["packages"].items[k].Dict?
                           && DecodePackage(args["packages"].items[k].entries).Ok?))
             || "name" !in args || "location" !in args
    ensures DecodePlanner(args).Err?
  {
  }

  /** Present fields are taken as they validate: a default never replaces a value that is there. */
  lemma PlannerPresent(args: Fields)
    requires DecodePlanner(args).Ok?
    ensures var p := DecodePlanner(args).value;
      && ("tagline" in args ==> AsOptStr(args["tagline"]) == Some(p.tagline))
      && ("rating" in args ==> AsFloat(args["rating"]) == Some(p.rating))
      && ("reviews_count" in args ==> args["reviews_count"] == Int(p.reviewsCount))
      && ("specialties" in args ==> AsStrList(args["specialties"]) == Some(p.specialties))
      && ("image_url" in args ==> AsOptStr(args["image_url"]) == Some(p.imageUrl))
      && ("packages" in args ==> AsPackages(args["packages"]) == Some(p.packages))
      && ("instagram" in args ==> AsOptStr(args["instagram"]) == Some(p.instagram))
      && ("website" in args ==> AsOptStr(args["website"]) == Some(p.website))
  {
  }

  /** A planner as the keyword arguments that construct it. */
  function PlannerArgs(p: Planner): Fields {
    map[
      "name" := Str(p.name), "tagline" := OptStrValue(p.tagline), "location" := Str(p.location),
      "rating" := Num(p.rating), "reviews_count" := Int(p.reviewsCount),
      "specialties" := List(StrValues(p.specialties)), "image_url" := OptStrValue(p.imageUrl),
      "packages" := List(PackageValues(p.packages)), "instagram" := OptStrValue(p.instagram),
      "website" := OptStrValue(p.website)]
  }

  /** Every valid planner is rebuilt from its own fields, packages in order. */
  lemma PlannerRoundTrip(p: Planner)
    requires ValidPlanner(p)
    ensures DecodePlanner(PlannerArgs(p)) == Ok(p)
  {
    var args := PlannerArgs(p);
    PlannerArgsEntries(p);
    StrListRoundTrip(p.specialties);
    PackageListRoundTrip(p.packages);
    OptStrRoundTrip(p.tagline);
    OptStrRoundTrip(p.imageUrl);
    OptStrRoundTrip(p.instagram);
    OptStrRoundTrip(p.website);
    assert Field(args, "name", None, AsStr) == Some(p.name);
    assert Field(args, "tagline", Some(None), AsOptStr) == Some(p.tagline);
    assert Field(args, "location", None, AsStr) == Some(p.location);
    assert Field(args, "rating", Some(5.0), AsRating) == Some(p.rating);
    assert Field(args, "reviews_count", Some(0), AsCount) == Some(p.reviewsCount);
    assert Field(args, "specialties", Some([]), AsStrList) == Some(p.specialties);
    assert Field(args, "image_url", Some(None), AsOptStr) == Some(p.imageUrl);
    assert Field(args, "packages", Some([]), AsPackages) == Some(p.packages);
    assert Field(args, "instagram", Some(None), AsOptStr) == Some(p.instagram);
    assert Field(args, "website", Some(None), AsOptStr) == Some(p.website);
    PlannerFromFields(args, p);
  }

  /** The entries of PlannerArgs, one by one. */
  lemma PlannerArgsEntries(p: Planner)
    ensures "name" in PlannerArgs(p) && PlannerArgs(p)["name"] == Str(p.name)
    ensures "tagline" in PlannerArgs(p) && PlannerArgs(p)["tagline"] == OptStrValue(p.tagline)
    ensures "location" in PlannerArgs(p) && PlannerArgs(p)["location"] == Str(p.location)
    ensures "rating" in PlannerArgs(p) && PlannerArgs(p)["rating"] == Num(p.rating)
    ensures "reviews_count" in PlannerArgs(p) && PlannerArgs(p)["reviews_count"] == Int(p.reviewsCount)
    ensures "specialties" in PlannerArgs(p) && PlannerArgs(p)["specialties"] == List(StrValues(p.specialties))
    ensures "image_url" in PlannerArgs(p) && PlannerArgs(p)["image_url"] == OptStrValue(p.imageUrl)
    ensures "packages" in PlannerArgs(p) && PlannerArgs(p)["packages"] == List(PackageValues(p.packages))
    ensures "instagram" in PlannerArgs(p) && PlannerArgs(p)["instagram"] == OptStrValue(p.instagram)
    ensures "website" in PlannerArgs(p) && PlannerArgs(p)["website"] == OptStrValue(p.website)
  {
  }

  /** Arguments whose every field validates to the field of `p` build `p`. */
  lemma PlannerFromFields(args: Fields, p: Planner)
    requires Field(args, "name", None, AsStr) == Some(p.name)
    requires Field(args, "tagline", Some(None), AsOptStr) == Some(p.tagline)
    requires Field(args, "location", None, AsStr) == Some(p.location)
    requires Field(args, "rating", Some(5.0), AsRating) == Some(p.rating)
    requires Field(args, "reviews_count", Some(0), AsCount) == Some(p.reviewsCount)
    requires Field(args, "specialties", Some([]), AsStrList) == Some(p.specialties)
    requires Field(args, "image_url", Some(None), AsOptStr) == Some(p.imageUrl)
    requires Field(args, "packages", Some([]), AsPackages) == Some(p.packages)
    requires Field(args, "instagram", Some(None), AsOptStr) == Some(p.instagram)
    requires Field(args, "website", Some(None), AsOptStr) == Some(p.website)
    ensures DecodePlanner(args) == Ok(p)
  {
  }

  // ---------------------------------------------------------------- Inquiry

  /**
   * The email-syntax check of `EmailStr`, which is outside this model: None
   * for an invalid address, otherwise the address as it is kept.
   */
  type EmailCheck = string -> Option<string>

  /** A customer inquiry as stored. */
  datatype Inquiry = Inquiry(
    plannerId: Option<string>,
    name: string,
    email: string,
    phone: Option<string>,
    eventDate: Option<string>,
    guestCount: Option<int>,
    message: Option<string>)

  /** The field constraint of an inquiry: a given guest count is not negative. */
  predicate ValidInquiry(q: Inquiry) {
    q.guestCount.Some? ==> q.guestCount.value >= 0
  }

  /** An `EmailStr` field: a string the email check accepts. */
  function AsEmail(emails: EmailCheck, v: Value): Option<string> {
    if v.Str? then emails(v.s) else None
  }

  /** A guest count: None, or an int that is at least zero. */
  function AsGuestCount(v: Value): Option<Option<int>> {
    match AsOptInt(v)
    case Some(Some(n)) => if n >= 0 then Some(Some(n)) else None
    case other => other
  }

  /** `Inquiry(**args)`: `name` and `email` are required, every other field defaults to None. */
  function DecodeInquiry(args: Fields, emails: EmailCheck): (r: Result<Inquiry, Error>)
    ensures r.Ok? ==> ValidInquiry(r.value)
    ensures r.Ok? ==> "name" in args && args["name"] == Str(r.value.name)
    ensures r.Ok? ==> "email" in args && args["email"].Str? && emails(args["email"].s) == Some(r.value.email)
    ensures "email" in args && args["email"].Str? && emails(args["email"].s).None? ==> r.Err?
    ensures "guest_count" in args && args["guest_count"].Int? && args["guest_count"].i < 0 ==> r.Err?
    ensures "name" !in args || "email" !in args ==> r.Err?
    ensures r.Err? ==> r.error.ValidationError? && r.error.model == "Inquiry" && r.error.fields != []
  {
    var plannerId := Field(args, "planner_id", Some(None), AsOptStr);
    var name := Field(args, "name", None, AsStr);
    var email := Field(args, "email", None, v => AsEmail(emails, v));
    var phone := Field(args, "phone", Some(None), AsOptStr);
    var eventDate := Field(args, "event_date", Some(None), AsOptStr);
    var guestCount := Field(args, "guest_count", Some(None), AsGuestCount);
    var message := Field(args, "message", Some(None), AsOptStr);
    if && plannerId.Some? && name.Some? && email.Some? && phone.Some? && eventDate.Some?
       && guestCount.Some? && message.Some?
    then
      Ok(Inquiry(plannerId.value, name.value, email.value, phone.value, eventDate.value,
                 guestCount.value, message.value))
    else
      Err(ValidationError("Inquiry",
        Failed("planner_id", plannerId.Some?) + Failed("name", name.Some?) + Failed("email", email.Some?)
        + Failed("phone", phone.Some?) + Failed("event_date", eventDate.Some?)
        + Failed("guest_count", guestCount.Some?) + Failed("message", message.Some?)))
  }

  /** Present optional fields are taken as they validate; absent ones are None. */
  lemma InquiryPresent(args: Fields, emails: EmailCheck)
    requires DecodeInquiry(args, emails).Ok?
    ensures var q := DecodeInquiry(args, emails).value;
      && (if "planner_id" in args then AsOptStr(args["planner_id"]) == Some(q.plannerId) else q.plannerId == None)
      && (if "phone" in args then AsOptStr(args["phone"]) == Some(q.phone) else q.phone == None)
      && (if "event_date" in args then AsOptStr(args["event_date"]) == Some(q.eventDate) else q.eventDate == None)
      && (if "guest_count" in args then AsOptInt(args["guest_count"]) == Some(q.guestCount) else q.guestCount == None)
      && (if "message" in args then AsOptStr(args["message"]) == Some(q.message) else q.message == None)
  {
  }
}
