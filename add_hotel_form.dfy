/**
 * The hotel listing form: its validation schema, the request its submit
 * handler sends, and the handler state (`isLoading`, `image`, `open`).
 */
module AddHotelForm {
  import opened Wrappers
  import opened FormShared

  /** The twelve optional amenity check boxes. */
  datatype HotelAmenities = HotelAmenities(
    gym: Option<bool>, spa: Option<bool>, bar: Option<bool>, laundry: Option<bool>,
    restaurant: Option<bool>, shopping: Option<bool>, freeParking: Option<bool>,
    bikeRental: Option<bool>, freeWifi: Option<bool>, movieNights: Option<bool>,
    swimmingPool: Option<bool>, coffeShop: Option<bool>)

  /** The values the form submits. */
  datatype HotelFormValues = HotelFormValues(
    title: string,
    description: string,
    image: string,
    country: string,
    state: Option<string>,
    city: Option<string>,
    locationDescription: string,
    amenities: HotelAmenities)

  /** One failed rule of the schema: the field and its message. */
  datatype FieldIssue = FieldIssue(field: string, message: string)

  const TitleMessage: string := "Title must be at least 3 characters long"
  const DescriptionMessage: string := "Description must be at least 10 characters long"
  const ImageMessage: string := "Image is required"
  const CountryMessage: string := "Country is required"
  const LocationMessage: string := "Location description must be at least 10 characters long"

  /** The schema's rules: minimum lengths on five strings; everything else optional. */
  predicate ValidHotelForm(v: HotelFormValues)
  {
    && |v.title| >= 3
    && |v.description| >= 10
    && |v.image| >= 1
    && |v.country| >= 1
    && |v.locationDescription| >= 10
  }

  /** The issues the schema reports, in field order. */
  function HotelFormIssues(v: HotelFormValues): (issues: seq<FieldIssue>)
    ensures issues == [] <==> ValidHotelForm(v)
    ensures FieldIssue("title", TitleMessage) in issues <==> |v.title| < 3
    ensures FieldIssue("description", DescriptionMessage) in issues <==> |v.description| < 10
    ensures FieldIssue("image", ImageMessage) in issues <==> v.image == ""
    ensures FieldIssue("country", CountryMessage) in issues <==> v.country == ""
    ensures FieldIssue("locationDescription", LocationMessage) in issues <==> |v.locationDescription| < 10
  {
    (if |v.title| < 3 then [FieldIssue("title", TitleMessage)] else [])
    + (if |v.description| < 10 then [FieldIssue("description", DescriptionMessage)] else [])
    + (if |v.image| < 1 then [FieldIssue("image", ImageMessage)] else [])
    + (if |v.country| < 1 then [FieldIssue("country", CountryMessage)] else [])
    + (if |v.locationDescription| < 10 then [FieldIssue("locationDescription", LocationMessage)] else [])
  }

  /** State, city and the amenities never decide validity. */
  lemma OptionalFieldsIrrelevant(v: HotelFormValues, state: Option<string>, city: Option<string>, amenities: HotelAmenities)
    ensures ValidHotelForm(v.(state := state, city := city, amenities := amenities)) == ValidHotelForm(v)
  {
  }

  const NoAmenities: HotelAmenities := HotelAmenities(
    Some(false), Some(false), Some(false), Some(false), Some(false), Some(false),
    Some(false), Some(false), Some(false), Some(false), Some(false), Some(false))

  /** The default values of a new hotel: empty strings and unchecked amenities. */
  const NewHotelValues: HotelFormValues :=
    HotelFormValues("", "", "", "", Some(""), Some(""), "", NoAmenities)

  /** The new-hotel defaults fail the title rule (and the other four). */
  lemma NewHotelDefaultsInvalid()
    ensures !ValidHotelForm(NewHotelValues)
    ensures HotelFormIssues(NewHotelValues) == [
      FieldIssue("title", TitleMessage), FieldIssue("description", DescriptionMessage),
      FieldIssue("image", ImageMessage), FieldIssue("country", CountryMessage),
      FieldIssue("locationDescription", LocationMessage)]
  {
  }

  /** The `hotel` prop of an existing listing: its id and stored values. */
  datatype ExistingHotel = ExistingHotel(id: string, values: HotelFormValues)

  /** `defaultValues: hotel || {...}`. */
  function DefaultValues(hotel: Option<ExistingHotel>): (r: HotelFormValues)
    ensures hotel.Some? ==> r == hotel.value.values
    ensures hotel.None? ==> !ValidHotelForm(r) && |HotelFormIssues(r)| == 5
  {
    NewHotelDefaultsInvalid();
    if hotel.Some? then hotel.value.values else NewHotelValues
  }

  /** `onSubmit`'s request: PATCH the existing hotel, or POST a new one. */
  function SubmitRequest(hotel: Option<ExistingHotel>, values: HotelFormValues): (r: Request<HotelFormValues>)
    ensures r.body == values
    ensures r.verb == Patch <==> hotel.Some?
    ensures hotel.Some? ==> r.path == "/api/hotel/" + hotel.value.id
    ensures hotel.None? ==> r.path == "/api/hotel"
  {
    match hotel
    case Some(h) => Request(Patch, "/api/hotel/" + h.id, values)
    case None => Request(Post, "/api/hotel", values)
  }

  const HotelMessages: ImageMessages := ImageMessages(
    "\U{1F389} Image uploaded successfully!", "Image upload failed!",
    "Image removed successfully!", "Failed to remove image")

  /** The form component's state. */
  class HotelForm {
    const hotel: Option<ExistingHotel>
    var isLoading: bool
    ghost var pending: bool        // a submit request has not settled yet
    const picture: ImageField      // `image` and the form's image value
    const dialog: DialogState      // `open`

    ghost predicate Valid()
      reads this, picture
    {
      picture.Valid()
    }

    constructor (hotel: Option<ExistingHotel>)
      ensures Valid() && fresh(picture) && fresh(dialog)
      ensures this.hotel == hotel && !isLoading && !pending && !dialog.open
      ensures picture.image == (if hotel.Some? then Some(hotel.value.values.image) else None)
    {
      this.hotel := hotel;
      isLoading := false;
      pending := false;
      picture := new ImageField(if hotel.Some? then Some(hotel.value.values.image) else None, HotelMessages);
      dialog := new DialogState();
    }

    /**
     * `form.handleSubmit(onSubmit)`: invalid values stop at the schema;
     * valid ones set `isLoading` and send the request.
     */
    method Submit(values: HotelFormValues) returns (request: Option<Request<HotelFormValues>>)
      modifies this`isLoading, this`pending
      ensures request.Some? <==> ValidHotelForm(values)
      ensures request.Some? ==> request.value == SubmitRequest(hotel, values) && isLoading && pending
      ensures request.None? ==> isLoading == old(isLoading) && pending == old(pending)
    {
      if HotelFormIssues(values) != [] {
        return None;
      }
      isLoading := true;
      request := Some(SubmitRequest(hotel, values));
      pending := true;
    }

    /**
     * The `then` or `catch` callback: `createdId` is `res.data.id` on success,
     * `None` on failure. Either way `isLoading` goes back to false.
     */
    method SubmitSettled(createdId: Option<string>) returns (navigation: Option<string>, toast: Toast)
      requires pending
      modifies this`isLoading, this`pending
      ensures !isLoading && !pending
      ensures navigation == if createdId.Some? then Some("/hotel/" + createdId.value) else None
      ensures createdId.Some? ==>
        toast == Toast(SuccessToast, if hotel.Some? then "\U{1F389} Hotel Updated" else "\U{1F389} Hotel Created")
      ensures createdId.None? ==> toast == Toast(DestructiveToast, "something went wrong!")
    {
      if createdId.Some? {
        toast := Toast(SuccessToast, if hotel.Some? then "\U{1F389} Hotel Updated" else "\U{1F389} Hotel Created");
        navigation := Some("/hotel/" + createdId.value);
      } else {
        toast := Toast(DestructiveToast, "something went wrong!");
        navigation := None;
      }
      isLoading := false;
      pending := false;
    }

    /** `handleRemoveImage`, delegated to the image cell. */
    method RemoveImage(deleteSucceeds: bool) returns (request: Option<Request<string>>, toast: Option<Toast>)
      requires Valid()
      modifies picture
      ensures Valid()
      ensures request.Some? <==> HasRemovableKey(old(picture.image))
      ensures request.None? ==> picture.image == old(picture.image) && picture.formValue == old(picture.formValue)
      ensures request.Some? ==> request.value == Request(Post, DeletePath, RemovalKey(old(picture.image)).value)
      ensures request.None? ==> toast.None?
      ensures request.Some? && deleteSucceeds ==> picture.image == Some("") && picture.formValue == ""
      ensures request.Some? && deleteSucceeds ==> toast == Some(Toast(SuccessToast, picture.messages.removed))
      ensures request.Some? && !deleteSucceeds ==> picture.image == old(picture.image) && picture.formValue == old(picture.formValue)
      ensures request.Some? && !deleteSucceeds ==> toast == Some(Toast(DestructiveToast, picture.messages.removeFailed))
    {
      request, toast := picture.Remove(deleteSucceeds);
    }

    /** `handleDialogueOpen`. */
    method HandleDialogueOpen()
      modifies dialog
      ensures dialog.open == !old(dialog.open)
    {
      dialog.Toggle();
    }
  }
}
