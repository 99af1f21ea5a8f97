/**
 * The request handlers of the wedding planner API (main.py): the planner
 * listing, which maps stored documents to PlannerOut records and falls back
 * to a fixed sample list when the store cannot be read, and the inquiry
 * acceptor, which validates an inquiry, inserts it, and answers "ok" whatever
 * happens.
 *
 * The document store is not part of this model. Its answer to the one call
 * each handler makes is a parameter (FindReply, InsertReply), and each handler
 * returns the call it issued, so that what reaches the store can be stated.
 */
module Endpoints {
  import opened Wrappers
  import opened Values
  import opened Schemas

  // ---------------------------------------------------------------- PlannerOut

  /** A planner as the listing returns it. Unlike Planner, no field is range-checked. */
  datatype PlannerOut = PlannerOut(
    id: string,
    name: string,
    tagline: Option<string>,
    location: string,
    rating: real,
    reviewsCount: int,
    specialties: seq<string>,
    imageUrl: Option<string>,
    packages: seq<PackageOption>,
    instagram: Option<string>,
    website: Option<string>)

  /**
   * How the required `name` and `location` are read: the store path uses
   * `d.get(key)` (absent gives None, which PlannerOut rejects), the fallback
   * path `x[key]` (absent raises KeyError).
   */
  datatype Access = ByGet | ByIndex

  // ---------------------------------------------------------------- record mapper

  /**
   * `[PackageOption(**p) for p in v]`: iterating a list yields its items, an
   * empty string or dict yields nothing, and any other value is not
   * iterable; an item that is not a mapping cannot be passed as `**p`.
   */
  function MapPackages(v: Value): (r: Result<seq<PackageOption>, Error>)
    ensures v.List? ==> (r.Ok? <==> PackageItems(v.items).Some?)
    ensures v.List? && r.Ok? ==> Some(r.value) == PackageItems(v.items)
    ensures !v.List? ==> r == (if v == Str("") || v == Dict(map[]) then Ok([]) else Err(TypeError))
  {
    match v
    case List(items) => MapPackageItems(items)
    case Str(s) => if s == "" then Ok([]) else Err(TypeError)
    case Dict(entries) => if entries == map[] then Ok([]) else Err(TypeError)
    case _ => Err(TypeError)
  }

  /** The comprehension over the items of a list: the first failing item's exception propagates. */
  function MapPackageItems(items: seq<Value>): (r: Result<seq<PackageOption>, Error>)
    ensures r.Ok? <==> PackageItems(items).Some?
    ensures r.Ok? ==> Some(r.value) == PackageItems(items)
    ensures r.Err? ==> exists k :: 0 <= k < |items| && FirstBadPackage(items, k)
                          && r.error == (if items[k].Dict? then DecodePackage(items[k].entries).error else TypeError)
  {
    if items == [] then Ok([])
    else if !items[0].Dict? then
      assert FirstBadPackage(items, 0);
      Err(TypeError)
    else match DecodePackage(items[0].entries)
      case Err(e) =>
        assert FirstBadPackage(items, 0);
        Err(e)
      case Ok(p) =>
        match MapPackageItems(items[1..])
        case Err(e) =>
          var k :| 0 <= k < |items[1..]| && FirstBadPackage(items[1..], k)
                   && e == (if items[1..][k].Dict? then DecodePackage(items[1..][k].entries).error else TypeError);
          assert FirstBadPackage(items, k + 1);
          Err(e)
        case Ok(rest) => Ok([p] + rest)
  }

  /** Item `k` is the first that is not a mapping or does not validate as a package. */
  predicate FirstBadPackage(items: seq<Value>, k: int)
    requires 0 <= k < |items|
  {
    && !(items[k].Dict? && DecodePackage(items[k].entries).Ok?)
    && forall j :: 0 <= j < k ==> items[j].Dict? && DecodePackage(items[j].entries).Ok?
  }

  /** A required argument; only under ByIndex can it raise. */
  function Required(d: Fields, key: string, access: Access): (r: Result<Value, Error>)
    ensures key in d ==> r == Ok(d[key])
    ensures key !in d && access == ByIndex ==> r == Err(KeyError(key))
    ensures key !in d && access == ByGet ==> r == Ok(Null)
  {
    if key in d then Ok(d[key])
    else if access == ByIndex then Err(KeyError(key))
    else Ok(Null)
  }

  /**
   * One document as a PlannerOut. The arguments are evaluated in order, so a
   * KeyError from `x["name"]` or `x["location"]` comes first, then an
   * exception from the package comprehension, and only then PlannerOut's
   * validation of every field.
   */
  function MapRecord(d: Fields, access: Access): (r: Result<PlannerOut, Error>)
    ensures r.Ok? ==> r.value.id == PyStr(Get(d, "_id", Null))
    ensures r.Ok? ==> "name" in d && d["name"] == Str(r.value.name)
    ensures r.Ok? ==> "location" in d && d["location"] == Str(r.value.location)
    ensures r.Err? && access == ByGet ==> !r.error.KeyError?
  {
    match (Required(d, "name", access), Required(d, "location", access))
    case (Err(e), _) => Err(e)
    case (_, Err(e)) => Err(e)
    case (Ok(nameArg), Ok(locationArg)) =>
      match MapPackages(Get(d, "packages", List([])))
      case Err(e) => Err(e)
      case Ok(packages) =>
        var name := AsStr(nameArg);
        var tagline := AsOptStr(Get(d, "tagline", Null));
        var location := AsStr(locationArg);
        var rating := AsFloat(Get(d, "rating", Num(5.0)));
        var reviewsCount := AsInt(Get(d, "reviews_count", Int(0)));
        var specialties := AsStrList(Get(d, "specialties", List([])));
        var imageUrl := AsOptStr(Get(d, "image_url", Null));
        var instagram := AsOptStr(Get(d, "instagram", Null));
        var website := AsOptStr(Get(d, "website", Null));
        if && name.Some? && tagline.Some? && location.Some? && rating.Some? && reviewsCount.Some?
           && specialties.Some? && imageUrl.Some? && instagram.Some? && website.Some?
        then
          Ok(PlannerOut(PyStr(Get(d, "_id", Null)), name.value, tagline.value, location.value,
                        rating.value, reviewsCount.value, specialties.value, imageUrl.value,
                        packages, instagram.value, website.value))
        else
          Err(ValidationError("PlannerOut",
            Failed("name", name.Some?) + Failed("tagline", tagline.Some?) + Failed("location", location.Some?)
            + Failed("rating", rating.Some?) + Failed("reviews_count", reviewsCount.Some?)
            + Failed("specialties", specialties.Some?) + Failed("image_url", imageUrl.Some?)
            + Failed("instagram", instagram.Some?) + Failed("website", website.Some?)))
  }

  /** Absent optional fields take their defaults: 5.0, 0, `[]`, `[]` and None. */
  lemma MapRecordDefaults(d: Fields, access: Access)
    requires MapRecord(d, access).Ok?
    ensures var o := MapRecord(d, access).value;
      && ("rating" !in d ==> o.rating == 5.0)
      && ("reviews_count" !in d ==> o.reviewsCount == 0)
      && ("specialties" !in d ==> o.specialties == [])
      && ("packages" !in d ==> o.packages == [])
      && ("tagline" !in d ==> o.tagline == None)
      && ("image_url" !in d ==> o.imageUrl == None)
      && ("instagram" !in d ==> o.instagram == None)
      && ("website" !in d ==> o.website == None)
      && ("_id" !in d ==> o.id == "None")
  {
  }

  /** Present fields are taken as they are: a default never replaces a value that is there. */
  lemma MapRecordPresent(d: Fields, access: Access)
    requires MapRecord(d, access).Ok?
    ensures var o := MapRecord(d, access).value;
      && ("rating" in d ==> AsFloat(d["rating"]) == Some(o.rating))
      && ("reviews_count" in d ==> d["reviews_count"] == Int(o.reviewsCount))
      && ("specialties" in d ==> AsStrList(d["specialties"]) == Some(o.specialties))
      && ("packages" in d ==> MapPackages(d["packages"]) == Ok(o.packages))
      && ("tagline" in d ==> AsOptStr(d["tagline"]) == Some(o.tagline))
      && ("image_url" in d ==> AsOptStr(d["image_url"]) == Some(o.imageUrl))
      && ("instagram" in d ==> AsOptStr(d["instagram"]) == Some(o.instagram))
      && ("website" in d ==> AsOptStr(d["website"]) == Some(o.website))
  {
  }

  /**
   * A document fails to map when `name` or `location` is not a string
   * (absent included), when a typed field is present but `null`, or when its
   * packages cannot be mapped.
   */
  lemma MapRecordRejected(d: Fields, access: Access)
    requires || !("name" in d && d["name"].Str?)
             || !("location" in d && d["location"].Str?)
             || ("rating" in d && d["rating"] == Null)
             || ("reviews_count" in d && d["reviews_count"] == Null)
             || ("specialties" in d && d["specialties"] == Null)
             || ("packages" in d && MapPackages(d["packages"]).Err?)
    ensures MapRecord(d, access).Err?
  {
  }

  /**
   * The order in which a document fails: under `x[key]` a missing `name`,
   * then a missing `location`, raises KeyError; next an exception from the
   * package comprehension; only then PlannerOut's own validation.
   */
  lemma MapRecordErrorOrder(d: Fields, access: Access)
    ensures access == ByIndex && "name" !in d ==> MapRecord(d, access) == Err(KeyError("name"))
    ensures access == ByIndex && "name" in d && "location" !in d ==> MapRecord(d, access) == Err(KeyError("location"))
    ensures (access == ByGet || ("name" in d && "location" in d))
            && MapPackages(Get(d, "packages", List([]))).Err?
            ==> MapRecord(d, access) == Err(MapPackages(Get(d, "packages", List([]))).error)
    ensures MapRecord(d, access).Err? && !MapRecord(d, access).error.KeyError?
            && MapPackages(Get(d, "packages", List([]))).Ok?
            ==> MapRecord(d, access).error.ValidationError? && MapRecord(d, access).error.model == "PlannerOut"
  {
  }

  /** One package that is not a mapping or does not validate fails the whole document. */
  lemma BadPackageRejects(d: Fields, access: Access, k: int)
    requires "packages" in d && d["packages"].List? && 0 <= k < |d["packages"].items|
    requires var item := d["packages"].items[k]; !(item.Dict? && DecodePackage(item.entries).Ok?)
    ensures MapRecord(d, access).Err?
  {
    assert MapPackages(d["packages"]).Err?;
  }

  /** On the listing path `rating` is not range-checked, where the Planner schema rejects it. */
  lemma ListingSkipsRatingBound()
    ensures var d := map["name" := Str("n"), "location" := Str("l"), "rating" := Num(7.0)];
      && MapRecord(d, ByGet).Ok? && MapRecord(d, ByGet).value.rating == 7.0
      && DecodePlanner(d).Err?
  {
  }

  /** A package list whose every item is a mapping that validates maps to those packages, in order. */
  lemma PackagesFromItems(items: seq<Value>, ps: seq<PackageOption>)
    requires |items| == |ps|
    requires forall k :: 0 <= k < |items| ==> items[k].Dict? && DecodePackage(items[k].entries) == Ok(ps[k])
    ensures MapPackages(List(items)) == Ok(ps)
  {
    var r := PackageItems(items);
    assert r.Some?;
    assert r.value == ps;
  }

  /**
   * A document whose `_id`, required fields, packages and optional fields each
   * give the matching field of `o` maps to `o`.
   */
  lemma MapRecordFromFields(d: Fields, access: Access, o: PlannerOut)
    requires PyStr(Get(d, "_id", Null)) == o.id
    requires "name" in d && d["name"] == Str(o.name)
    requires "location" in d && d["location"] == Str(o.location)
    requires MapPackages(Get(d, "packages", List([]))) == Ok(o.packages)
    requires AsOptStr(Get(d, "tagline", Null)) == Some(o.tagline)
    requires AsFloat(Get(d, "rating", Num(5.0))) == Some(o.rating)
    requires AsInt(Get(d, "reviews_count", Int(0))) == Some(o.reviewsCount)
    requires AsStrList(Get(d, "specialties", List([]))) == Some(o.specialties)
    requires AsOptStr(Get(d, "image_url", Null)) == Some(o.imageUrl)
    requires AsOptStr(Get(d, "instagram", Null)) == Some(o.instagram)
    requires AsOptStr(Get(d, "website", Null)) == Some(o.website)
    ensures MapRecord(d, access) == Ok(o)
  {
  }

  /** A PlannerOut as a fully populated stored document. */
  function OutDocument(o: PlannerOut): Fields {
    map[
      "_id" := Str(o.id), "name" := Str(o.name), "tagline" := OptStrValue(o.tagline),
      "location" := Str(o.location), "rating" := Num(o.rating), "reviews_count" := Int(o.reviewsCount),
      "specialties" := List(StrValues(o.specialties)), "image_url" := OptStrValue(o.imageUrl),
      "packages" := List(PackageValues(o.packages)), "instagram" := OptStrValue(o.instagram),
      "website" := OptStrValue(o.website)]
  }

  /** The entries of OutDocument, one by one. */
  lemma OutDocumentEntries(o: PlannerOut)
    ensures "_id" in OutDocument(o) && OutDocument(o)["_id"] == Str(o.id)
    ensures "name" in OutDocument(o) && OutDocument(o)["name"] == Str(o.name)
    ensures "tagline" in OutDocument(o) && OutDocument(o)["tagline"] == OptStrValue(o.tagline)
    ensures "location" in OutDocument(o) && OutDocument(o)["location"] == Str(o.location)
    ensures "rating" in OutDocument(o) && OutDocument(o)["rating"] == Num(o.rating)
    ensures "reviews_count" in OutDocument(o) && OutDocument(o)["reviews_count"] == Int(o.reviewsCount)
    ensures "specialties" in OutDocument(o) && OutDocument(o)["specialties"] == List(StrValues(o.specialties))
    ensures "image_url" in OutDocument(o) && OutDocument(o)["image_url"] == OptStrValue(o.imageUrl)
    ensures "packages" in OutDocument(o) && OutDocument(o)["packages"] == List(PackageValues(o.packages))
    ensures "instagram" in OutDocument(o) && OutDocument(o)["instagram"] == OptStrValue(o.instagram)
    ensures "website" in OutDocument(o) && OutDocument(o)["website"] == OptStrValue(o.website)
  {
  }

  /**
   * A fully populated document with valid packages maps to the record whose
   * every field equals the document's, packages in their stored order.
   */
  lemma MapRecordRoundTrip(o: PlannerOut, access: Access)
    requires forall k :: 0 <= k < |o.packages| ==> ValidPackage(o.packages[k])
    ensures MapRecord(OutDocument(o), access) == Ok(o)
  {
    var d := OutDocument(o);
    OutDocumentEntries(o);
    StrListRoundTrip(o.specialties);
    PackageListRoundTrip(o.packages);
    OptStrRoundTrip(o.tagline);
    OptStrRoundTrip(o.imageUrl);
    OptStrRoundTrip(o.instagram);
    OptStrRoundTrip(o.website);
    assert MapPackages(Get(d, "packages", List([]))) == Ok(o.packages);
    assert AsStrList(Get(d, "specialties", List([]))) == Some(o.specialties);
    MapRecordFromFields(d, access, o);
  }

  // ---------------------------------------------------------------- listing

  /** A list of documents mapped in order; the first failing document's exception propagates. */
  function MapEach(docs: seq<Fields>, access: Access): (r: Result<seq<PlannerOut>, Error>)
    ensures r.Ok? <==> forall k :: 0 <= k < |docs| ==> MapRecord(docs[k], access).Ok?
    ensures r.Ok? ==> |r.value| == |docs|
    ensures r.Ok? ==> forall k :: 0 <= k < |docs| ==> MapRecord(docs[k], access) == Ok(r.value[k])
    ensures r.Err? ==> exists k :: 0 <= k < |docs| && FirstBadDocument(docs, access, k)
                                   && r.error == MapRecord(docs[k], access).error
  {
    if docs == [] then Ok([])
    else match MapRecord(docs[0], access)
      case Err(e) =>
        assert FirstBadDocument(docs, access, 0);
        Err(e)
      case Ok(o) =>
        match MapEach(docs[1..], access)
        case Err(e) =>
          var k :| 0 <= k < |docs[1..]| && FirstBadDocument(docs[1..], access, k)
                   && e == MapRecord(docs[1..][k], access).error;
          assert FirstBadDocument(docs, access, k + 1);
          Err(e)
        case Ok(rest) => Ok([o] + rest)
  }

  /** Document `k` is the first that fails to map. */
  predicate FirstBadDocument(docs: seq<Fields>, access: Access, k: int)
    requires 0 <= k < |docs|
  {
    && MapRecord(docs[k], access).Err?
    && forall j :: 0 <= j < k ==> MapRecord(docs[j], access).Ok?
  }

  /** When document `k` is the first that fails, the listing raises that document's exception. */
  lemma MapEachRaisesFirstBad(docs: seq<Fields>, access: Access, k: int)
    requires 0 <= k < |docs| && FirstBadDocument(docs, access, k)
    ensures MapEach(docs, access) == Err(MapRecord(docs[k], access).error)
  {
    assert !MapEach(docs, access).Ok? by {
      assert !MapRecord(docs[k], access).Ok?;
    }
    var j :| 0 <= j < |docs| && FirstBadDocument(docs, access, j)
             && MapEach(docs, access).error == MapRecord(docs[j], access).error;
    assert MapRecord(docs[j], access).Err? && MapRecord(docs[k], access).Err?;
  }

  /** Records that each document maps to, in order, are the listing. */
  lemma MapEachFromRecords(docs: seq<Fields>, access: Access, records: seq<PlannerOut>)
    requires |records| == |docs|
    requires forall k :: 0 <= k < |docs| ==> MapRecord(docs[k], access) == Ok(records[k])
    ensures MapEach(docs, access) == Ok(records)
  {
    assert MapEach(docs, access).Ok?;
    assert MapEach(docs, access).value == records;
  }

  /** One bad document fails the whole listing: there is no partial result. */
  lemma MapEachAllOrNothing(docs: seq<Fields>, access: Access, k: int)
    requires 0 <= k < |docs| && MapRecord(docs[k], access).Err?
    ensures MapEach(docs, access).Err?
  {
  }

  /** The eleven keys every sample spells out. */
  const SAMPLE_KEYS: set<string> := {"_id", "name", "tagline", "location", "rating", "reviews_count",
                                    "specialties", "image_url", "packages", "instagram", "website"}

  /**
   * The sample planners served when the store cannot be read, in this order;
   * each spells out all eleven keys, so no `.get` default is taken.
   */
  function SampleDocuments(): (r: seq<Fields>)
    ensures |r| == 2
    ensures r[0].Keys == SAMPLE_KEYS && r[1].Keys == SAMPLE_KEYS
    ensures r[0]["_id"] == Str("demo1") && r[0]["name"] == Str("We Me Good Weddings")
    ensures r[1]["_id"] == Str("demo2") && r[1]["name"] == Str("EverAfter Collective")
  {
    SampleDocumentKeys(WeMeGoodSample());
    SampleDocumentKeys(EverAfterSample());
    SampleDocumentEntries(WeMeGoodSample());
    SampleDocumentEntries(EverAfterSample());
    [SampleDocument(WeMeGoodSample()), SampleDocument(EverAfterSample())]
  }

  const WE_ME_GOOD_IMAGE := "https://images.unsplash.com/photo-1519741497674-611481863552?q=80&w=1400&auto=format&fit=crop"
  const EVER_AFTER_IMAGE := "https://images.unsplash.com/photo-1522673607200-164d1b6ce486?q=80&w=1400&auto=format&fit=crop"

  /** A sample package as a stored mapping; the sample prices are ints. */
  function PackageDocument(name: string, price: int, features: seq<string>): Value {
    Dict(map["name" := Str(name), "price" := Int(price), "features" := List(StrValues(features))])
  }

  /** The values of the eleven keys each sample spells out. */
  datatype Sample = Sample(id: Value, name: Value, tagline: Value, location: Value, rating: Value,
                           reviewsCount: Value, specialties: Value, imageUrl: Value, packages: Value,
                           instagram: Value, website: Value)

  /** A sample as the dict literal holding those eleven keys. */
  function SampleDocument(x: Sample): Fields {
    map[
      "_id" := x.id, "name" := x.name, "tagline" := x.tagline, "location" := x.location,
      "rating" := x.rating, "reviews_count" := x.reviewsCount, "specialties" := x.specialties,
      "image_url" := x.imageUrl, "packages" := x.packages, "instagram" := x.instagram,
      "website" := x.website]
  }

  /** The entries of SampleDocument, one by one. */
  lemma SampleDocumentEntries(x: Sample)
    ensures var d := SampleDocument(x);
      && Get(d, "_id", Null) == x.id && "name" in d && d["name"] == x.name
      && Get(d, "tagline", Null) == x.tagline && "location" in d && d["location"] == x.location
      && Get(d, "rating", Num(5.0)) == x.rating && Get(d, "reviews_count", Int(0)) == x.reviewsCount
      && Get(d, "specialties", List([])) == x.specialties && Get(d, "image_url", Null) == x.imageUrl
      && Get(d, "packages", List([])) == x.packages && Get(d, "instagram", Null) == x.instagram
      && Get(d, "website", Null) == x.website
  {
  }

  /** SampleDocument holds exactly the eleven sample keys. */
  lemma SampleDocumentKeys(x: Sample)
    ensures SampleDocument(x).Keys == SAMPLE_KEYS
  {
  }

  /** A sample whose every value gives the matching field of `o` maps to `o`. */
  lemma SampleMaps(x: Sample, o: PlannerOut)
    requires PyStr(x.id) == o.id && x.name == Str(o.name) && x.location == Str(o.location)
    requires MapPackages(x.packages) == Ok(o.packages)
    requires AsOptStr(x.tagline) == Some(o.tagline)
    requires AsFloat(x.rating) == Some(o.rating)
    requires AsInt(x.reviewsCount) == Some(o.reviewsCount)
    requires AsStrList(x.specialties) == Some(o.specialties)
    requires AsOptStr(x.imageUrl) == Some(o.imageUrl)
    requires AsOptStr(x.instagram) == Some(o.instagram)
    requires AsOptStr(x.website) == Some(o.website)
    ensures MapRecord(SampleDocument(x), ByIndex) == Ok(o)
  {
    SampleDocumentEntries(x);
    MapRecordFromFields(SampleDocument(x), ByIndex, o);
  }

  /** The first sample: every field a value, two packages. */
  function WeMeGoodSample(): (r: Sample)
    ensures r.id == Str("demo1") && r.name == Str("We Me Good Weddings") && r.location == Str("New York, NY")
    ensures r.packages.List? && |r.packages.items| == 2
    ensures r.instagram.Str? && r.website.Str?
  {
    Sample(
      Str("demo1"),
      Str("We Me Good Weddings"),
      Str("Timeless celebrations, flawlessly planned"),
      Str("New York, NY"),
      Num(4.9),
      Int(128),
      List(StrValues(["Full-Service Planning", "Luxury", "Destination"])),
      Str(WE_ME_GOOD_IMAGE),
      List([
        PackageDocument("Classic", 3500, ["Timeline", "Vendor Coordination", "Day-Of Team"]),
        PackageDocument("Signature", 6500, ["Design", "Rehearsal", "Logistics Lead"])]),
      Str("https://instagram.com/wemegood"),
      Str("https://wemegood.example.com"))
  }

  /** The second sample: one package; `instagram` and `website` are present and None. */
  function EverAfterSample(): (r: Sample)
    ensures r.id == Str("demo2") && r.name == Str("EverAfter Collective") && r.location == Str("Los Angeles, CA")
    ensures r.packages.List? && |r.packages.items| == 1
    ensures r.instagram == Null && r.website == Null
  {
    Sample(
      Str("demo2"),
      Str("EverAfter Collective"),
      Str("Design-forward weddings with heart"),
      Str("Los Angeles, CA"),
      Num(4.8),
      Int(92),
      List(StrValues(["Design", "Partial Planning", "Coordinaton"])),
      Str(EVER_AFTER_IMAGE),
      List([PackageDocument("Partial Planning", 2800, ["Vendor Shortlist", "Budget Mapping"])]),
      Null,
      Null)
  }

  /**
   * The fallback listing: the sample documents through the same mapping, read
   * with `x[key]`. It never fails: it is exactly the two sample planners, in order.
   */
  function FallbackPlanners(): (r: Result<seq<PlannerOut>, Error>)
    ensures r == Ok([WeMeGoodListing(), EverAfterListing()])
    ensures r.value[0].id == "demo1" && r.value[0].name == "We Me Good Weddings"
    ensures r.value[1].id == "demo2" && r.value[1].name == "EverAfter Collective"
  {
    FirstSampleMaps();
    SecondSampleMaps();
    MapEachPair(SampleDocument(WeMeGoodSample()), SampleDocument(EverAfterSample()), ByIndex);
    MapEach(SampleDocuments(), ByIndex)
  }

  /** A sample package validates to itself, its int price read as a float. */
  lemma PackageDocumentDecodes(name: string, price: nat, features: seq<string>)
    ensures PackageDocument(name, price, features).Dict?
    ensures DecodePackage(PackageDocument(name, price, features).entries)
         == Ok(PackageOption(name, price as real, features))
  {
    StrListRoundTrip(features);
  }

  /** The packages of the first sample, int prices read as floats. */
  lemma WeMeGoodPackages()
    ensures MapPackages(WeMeGoodSample().packages)
         == Ok([PackageOption("Classic", 3500.0, ["Timeline", "Vendor Coordination", "Day-Of Team"]),
                PackageOption("Signature", 6500.0, ["Design", "Rehearsal", "Logistics Lead"])])
  {
    PackageDocumentDecodes("Classic", 3500, ["Timeline", "Vendor Coordination", "Day-Of Team"]);
    PackageDocumentDecodes("Signature", 6500, ["Design", "Rehearsal", "Logistics Lead"]);
    PackagesFromItems(WeMeGoodSample().packages.items,
      [PackageOption("Classic", 3500.0, ["Timeline", "Vendor Coordination", "Day-Of Team"]),
       PackageOption("Signature", 6500.0, ["Design", "Rehearsal", "Logistics Lead"])]);
  }

  /** The package of the second sample, its int price read as a float. */
  lemma EverAfterPackages()
    ensures MapPackages(EverAfterSample().packages)
         == Ok([PackageOption("Partial Planning", 2800.0, ["Vendor Shortlist", "Budget Mapping"])])
  {
    PackageDocumentDecodes("Partial Planning", 2800, ["Vendor Shortlist", "Budget Mapping"]);
    PackagesFromItems(EverAfterSample().packages.items,
      [PackageOption("Partial Planning", 2800.0, ["Vendor Shortlist", "Budget Mapping"])]);
  }

  /** The record the fallback serves for the first sample. */
  function WeMeGoodListing(): PlannerOut {
    PlannerOut(
      "demo1", "We Me Good Weddings", Some("Timeless celebrations, flawlessly planned"), "New York, NY",
      4.9, 128, ["Full-Service Planning", "Luxury", "Destination"], Some(WE_ME_GOOD_IMAGE),
      [PackageOption("Classic", 3500.0, ["Timeline", "Vendor Coordination", "Day-Of Team"]),
       PackageOption("Signature", 6500.0, ["Design", "Rehearsal", "Logistics Lead"])],
      Some("https://instagram.com/wemegood"), Some("https://wemegood.example.com"))
  }

  /** The record the fallback serves for the second sample: no Instagram, no website. */
  function EverAfterListing(): PlannerOut {
    PlannerOut(
      "demo2", "EverAfter Collective", Some("Design-forward weddings with heart"), "Los Angeles, CA",
      4.8, 92, ["Design", "Partial Planning", "Coordinaton"], Some(EVER_AFTER_IMAGE),
      [PackageOption("Partial Planning", 2800.0, ["Vendor Shortlist", "Budget Mapping"])],
      None, None)
  }

  /** The plain fields of the first sample validate to those of its record. */
  lemma WeMeGoodScalars()
    ensures var x, o := WeMeGoodSample(), WeMeGoodListing();
      && PyStr(x.id) == o.id && x.name == Str(o.name) && x.location == Str(o.location)
      && AsOptStr(x.tagline) == Some(o.tagline) && AsFloat(x.rating) == Some(o.rating)
      && AsInt(x.reviewsCount) == Some(o.reviewsCount) && AsOptStr(x.imageUrl) == Some(o.imageUrl)
      && AsOptStr(x.instagram) == Some(o.instagram) && AsOptStr(x.website) == Some(o.website)
  {
  }

  /** The plain fields of the second sample validate to those of its record. */
  lemma EverAfterScalars()
    ensures var x, o := EverAfterSample(), EverAfterListing();
      && PyStr(x.id) == o.id && x.name == Str(o.name) && x.location == Str(o.location)
      && AsOptStr(x.tagline) == Some(o.tagline) && AsFloat(x.rating) == Some(o.rating)
      && AsInt(x.reviewsCount) == Some(o.reviewsCount) && AsOptStr(x.imageUrl) == Some(o.imageUrl)
      && AsOptStr(x.instagram) == Some(o.instagram) && AsOptStr(x.website) == Some(o.website)
  {
  }

  /** The first sample maps to its record. */
  lemma FirstSampleMaps()
    ensures MapRecord(SampleDocument(WeMeGoodSample()), ByIndex) == Ok(WeMeGoodListing())
  {
    WeMeGoodScalars();
    WeMeGoodPackages();
    StrListRoundTrip(WeMeGoodListing().specialties);
    SampleMaps(WeMeGoodSample(), WeMeGoodListing());
  }

  /** The second sample maps to its record. */
  lemma SecondSampleMaps()
    ensures MapRecord(SampleDocument(EverAfterSample()), ByIndex) == Ok(EverAfterListing())
  {
    EverAfterScalars();
    EverAfterPackages();
    StrListRoundTrip(EverAfterListing().specialties);
    SampleMaps(EverAfterSample(), EverAfterListing());
  }

  /** Two documents that both map give the two records, in order. */
  lemma MapEachPair(a: Fields, b: Fields, access: Access)
    requires MapRecord(a, access).Ok? && MapRecord(b, access).Ok?
    ensures MapEach([a, b], access) == Ok([MapRecord(a, access).value, MapRecord(b, access).value])
  {
    var r := MapEach([a, b], access);
    assert [a, b][0] == a && [a, b][1] == b;
    assert r.Ok?;
    assert r.value == [MapRecord(a, access).value, MapRecord(b, access).value];
  }

  /** The store query the listing issues: `get_documents(collection, filter, limit)`. */
  datatype FindCall = FindCall(collection: string, filter: Fields, limit: int)

  /** What the store answered: the documents (already cut to the limit), or an exception. */
  datatype FindReply = Found(docs: seq<Fields>) | Raised

  /** The page size when the request gives no `limit`. */
  const DEFAULT_LIMIT := 20

  /**
   * `GET /api/planners`: query the store; if that raises, serve the fallback
   * list; otherwise map every document, in store order.
   */
  method ListPlanners(limit: Option<int>, reply: FindReply) returns (call: FindCall, r: Result<seq<PlannerOut>, Error>)
    ensures call == FindCall(CollectionName("Planner"), map[], if limit.Some? then limit.value else DEFAULT_LIMIT)
    ensures reply.Raised? ==> r == FallbackPlanners()
    ensures reply.Found? ==> r == MapEach(reply.docs, ByGet)
  {
    call := FindCall("planner", map[], if limit.Some? then limit.value else DEFAULT_LIMIT);
    CollectionNames();
    if reply.Raised? {
      r := FallbackPlanners();
    } else {
      r := MapStored(reply.docs);
    }
  }

  /**
   * The loop of the store path: append each document's record, in store
   * order; the first document that does not map ends the listing with its
   * exception.
   */
  method MapStored(docs: seq<Fields>) returns (r: Result<seq<PlannerOut>, Error>)
    ensures r == MapEach(docs, ByGet)
  {
    var result: seq<PlannerOut> := [];
    var i := 0;
    while i < |docs|
      invariant 0 <= i <= |docs|
      invariant |result| == i
      invariant forall k :: 0 <= k < i ==> MapRecord(docs[k], ByGet) == Ok(result[k])
    {
      var mapped := MapRecord(docs[i], ByGet);
      if mapped.Err? {
        assert FirstBadDocument(docs, ByGet, i);
        MapEachRaisesFirstBad(docs, ByGet, i);
        return Err(mapped.error);
      }
      result := result + [mapped.value];
      i := i + 1;
    }
    MapEachFromRecords(docs, ByGet, result);
    r := Ok(result);
  }

  // ---------------------------------------------------------------- inquiries

  /** The inquiry body as the HTTP layer accepts it: `email` is a plain string here. */
  datatype InquiryIn = InquiryIn(
    plannerId: Option<string>,
    name: string,
    email: string,
    phone: Option<string>,
    eventDate: Option<string>,
    guestCount: Option<int>,
    message: Option<string>)

  /** Request-body validation of InquiryIn: `name` and `email` are required strings, the rest optional. */
  function DecodeInquiryIn(body: Fields): (r: Result<InquiryIn, Error>)
    ensures r.Ok? ==> "name" in body && body["name"] == Str(r.value.name)
    ensures r.Ok? ==> "email" in body && body["email"] == Str(r.value.email)
    ensures r.Ok? ==> if "planner_id" in body then AsOptStr(body["planner_id"]) == Some(r.value.plannerId)
                      else r.value.plannerId == None
    ensures r.Ok? ==> if "phone" in body then AsOptStr(body["phone"]) == Some(r.value.phone)
                      else r.value.phone == None
    ensures r.Ok? ==> if "event_date" in body then AsOptStr(body["event_date"]) == Some(r.value.eventDate)
                      else r.value.eventDate == None
    ensures r.Ok? ==> if "guest_count" in body then AsOptInt(body["guest_count"]) == Some(r.value.guestCount)
                      else r.value.guestCount == None
    ensures r.Ok? ==> if "message" in body then AsOptStr(body["message"]) == Some(r.value.message)
                      else r.value.message == None
    ensures "name" !in body || "email" !in body ==> r.Err?
    ensures r.Err? ==> r.error.ValidationError? && r.error.model == "InquiryIn" && r.error.fields != []
  {
    var plannerId := Field(body, "planner_id", Some(None), AsOptStr);
    var name := Field(body, "name", None, AsStr);
    var email := Field(body, "email", None, AsStr);
    var phone := Field(body, "phone", Some(None), AsOptStr);
    var eventDate := Field(body, "event_date", Some(None), AsOptStr);
    var guestCount := Field(body, "guest_count", Some(None), AsOptInt);
    var message := Field(body, "message", Some(None), AsOptStr);
    if && plannerId.Some? && name.Some? && email.Some? && phone.Some? && eventDate.Some?
       && guestCount.Some? && message.Some?
    then
      Ok(InquiryIn(plannerId.value, name.value, email.value, phone.value, eventDate.value,
                   guestCount.value, message.value))
    else
      Err(ValidationError("InquiryIn",
        Failed("planner_id", plannerId.Some?) + Failed("name", name.Some?) + Failed("email", email.Some?)
        + Failed("phone", phone.Some?) + Failed("event_date", eventDate.Some?)
        + Failed("guest_count", guestCount.Some?) + Failed("message", message.Some?)))
  }

  /** Only `name` and `email` are needed, and any string passes as the email at this stage. */
  lemma InquiryInMinimal(name: string, email: string)
    ensures DecodeInquiryIn(map["name" := Str(name), "email" := Str(email)])
         == Ok(InquiryIn(None, name, email, None, None, None, None))
  {
  }

  /** `payload.model_dump()`: every field, unset ones as None. */
  function Dump(p: InquiryIn): (r: Fields)
    ensures r.Keys == {"planner_id", "name", "email", "phone", "event_date", "guest_count", "message"}
    ensures r["name"] == Str(p.name) && r["email"] == Str(p.email)
    ensures r["guest_count"] == Null <==> p.guestCount.None?
  {
    map[
      "planner_id" := OptStrValue(p.plannerId), "name" := Str(p.name), "email" := Str(p.email),
      "phone" := OptStrValue(p.phone), "event_date" := OptStrValue(p.eventDate),
      "guest_count" := if p.guestCount.Some? then Int(p.guestCount.value) else Null,
      "message" := OptStrValue(p.message)]
  }

  /** Dumping an accepted body and validating it again gives the same InquiryIn. */
  lemma DumpRoundTrip(p: InquiryIn)
    ensures DecodeInquiryIn(Dump(p)) == Ok(p)
  {
    OptStrRoundTrip(p.plannerId);
    OptStrRoundTrip(p.phone);
    OptStrRoundTrip(p.eventDate);
    OptStrRoundTrip(p.message);
  }

  /** A dumped InquiryIn builds an Inquiry exactly when its email passes the check and its guest count is not negative. */
  lemma InquiryFromPayload(p: InquiryIn, emails: EmailCheck)
    ensures DecodeInquiry(Dump(p), emails).Ok? <==>
              emails(p.email).Some? && (p.guestCount.Some? ==> p.guestCount.value >= 0)
    ensures DecodeInquiry(Dump(p), emails).Ok? ==>
              DecodeInquiry(Dump(p), emails).value
              == Inquiry(p.plannerId, p.name, emails(p.email).value, p.phone, p.eventDate, p.guestCount, p.message)
  {
    OptStrRoundTrip(p.plannerId);
    OptStrRoundTrip(p.phone);
    OptStrRoundTrip(p.eventDate);
    OptStrRoundTrip(p.message);
  }

  /** The insert the acceptor issues: `create_document(collection, inquiry)`. */
  datatype InsertCall = InsertCall(collection: string, doc: Inquiry)

  /** What the store answers to an insert: the new document's id, or an exception. */
  datatype InsertReply = Inserted(id: string) | InsertRaised

  /** The JSON answer `{status, id, note?}`. */
  datatype InquiryResponse = InquiryResponse(status: string, id: string, note: Option<string>)

  /** What a submission did: the insert it issued, if it got that far, and its answer. */
  datatype Submission = Submission(insert: Option<InsertCall>, response: InquiryResponse)

  const DEMO_ID := "demo-inquiry"
  const DEMO_NOTE := "Stored in-memory for preview"

  /**
   * `POST /api/inquiries`: build an Inquiry from the payload, then insert it.
   * Any exception, from validation or from the insert, is answered with the
   * demo acknowledgement instead.
   */
  function SubmitInquiry(payload: InquiryIn, emails: EmailCheck, store: InsertReply): (r: Submission)
    ensures r.response.status == "ok"
    ensures r.insert.Some? <==> DecodeInquiry(Dump(payload), emails).Ok?
    ensures r.insert.Some? ==> r.insert.value.collection == CollectionName("Inquiry")
                               && r.insert.value.doc == DecodeInquiry(Dump(payload), emails).value
                               && ValidInquiry(r.insert.value.doc)
    ensures r.response.note.None? <==> r.insert.Some? && store.Inserted?
    ensures r.response.note.None? ==> r.response.id == store.id
    ensures r.response.note.Some? ==> r.response.id == DEMO_ID && r.response.note == Some(DEMO_NOTE)
  {
    CollectionNames();
    match DecodeInquiry(Dump(payload), emails)
    case Err(_) => Submission(None, InquiryResponse("ok", DEMO_ID, Some(DEMO_NOTE)))
    case Ok(inquiry) =>
      var call := InsertCall("inquiry", inquiry);
      match store
      case Inserted(id) => Submission(Some(call), InquiryResponse("ok", id, None))
      case InsertRaised => Submission(Some(call), InquiryResponse("ok", DEMO_ID, Some(DEMO_NOTE)))
  }

  /** A malformed email is not rejected: nothing is inserted and the demo acknowledgement is returned. */
  lemma MalformedEmailAcknowledged(payload: InquiryIn, emails: EmailCheck, store: InsertReply)
    requires emails(payload.email).None?
    ensures SubmitInquiry(payload, emails, store)
         == Submission(None, InquiryResponse("ok", DEMO_ID, Some(DEMO_NOTE)))
  {
    InquiryFromPayload(payload, emails);
  }

  /** A negative guest count never reaches the store. */
  lemma NegativeGuestCountNotStored(payload: InquiryIn, emails: EmailCheck, store: InsertReply)
    requires payload.guestCount.Some? && payload.guestCount.value < 0
    ensures SubmitInquiry(payload, emails, store).insert.None?
  {
    InquiryFromPayload(payload, emails);
  }

  /** A valid payload with a working store is stored and answered with the store's id and no note. */
  lemma ValidInquiryStored(payload: InquiryIn, emails: EmailCheck, id: string)
    requires emails(payload.email).Some?
    requires payload.guestCount.Some? ==> payload.guestCount.value >= 0
    ensures var s := SubmitInquiry(payload, emails, Inserted(id));
      && s.insert.Some? && s.insert.value.collection == "inquiry"
      && s.insert.value.doc.email == emails(payload.email).value
      && s.response == InquiryResponse("ok", id, None)
  {
    InquiryFromPayload(payload, emails);
  }
}
