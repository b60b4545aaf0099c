/**
 * The room listing form: its validation schema, the branch its submit
 * handler takes (PATCH, POST or nothing) and the handler state. Numeric
 * fields arrive already coerced to integers.
 */
module AddRoomForm {
  import opened Wrappers
  import opened FormShared

  /** The ten optional amenity check boxes. */
  datatype RoomAmenities = RoomAmenities(
    roomService: Option<bool>, tv: Option<bool>, balcony: Option<bool>, freeWifi: Option<bool>,
    cityView: Option<bool>, oceanView: Option<bool>, forestView: Option<bool>,
    mountainView: Option<bool>, airCondition: Option<bool>, soundProofed: Option<bool>)

  /** The values the form submits. */
  datatype RoomFormValues = RoomFormValues(
    title: string,
    description: string,
    bedCount: int,
    guestCount: int,
    bathroomCount: int,
    kingBed: int,
    queenBed: int,
    image: string,
    breakFastPrice: Option<int>,
    roomPrice: int,
    amenities: RoomAmenities)

  /** The schema's fields that carry a rule (`breakFastPrice` is optional and unbounded). */
  datatype RoomField =
    Title | Description | BedCount | GuestCount | BathroomCount | KingBed | QueenBed | Image | BreakFastPrice | RoomPrice

  /** Whether the value of field `f` breaks its rule. */
  predicate Fails(v: RoomFormValues, f: RoomField)
  {
    match f
    case Title => |v.title| < 3
    case Description => |v.description| < 10
    case BedCount => v.bedCount < 1
    case GuestCount => v.guestCount < 1
    case BathroomCount => v.bathroomCount < 1
    case KingBed => v.kingBed < 0
    case QueenBed => v.queenBed < 0
    case Image => |v.image| < 1
    case BreakFastPrice => false
    case RoomPrice => v.roomPrice < 1
  }

  /** The schema's rules: no field breaks its rule. */
  predicate ValidRoomForm(v: RoomFormValues)
  {
    forall f :: !Fails(v, f)
  }

  /** The schema's fields in declaration order. */
  const SchemaOrder: seq<RoomField> :=
    [Title, Description, BedCount, GuestCount, BathroomCount, KingBed, QueenBed, Image, BreakFastPrice, RoomPrice]

  /** The fields of `fields` that fail, in the same order. */
  function FailingFields(v: RoomFormValues, fields: seq<RoomField>): (r: seq<RoomField>)
    ensures forall f :: f in r <==> f in fields && Fails(v, f)
  {
    if fields == [] then []
    else (if Fails(v, fields[0]) then [fields[0]] else []) + FailingFields(v, fields[1..])
  }

  /** The fields the schema rejects, in field order; none exactly when the values are valid. */
  function RoomFormIssues(v: RoomFormValues): (fields: seq<RoomField>)
    ensures fields == [] <==> ValidRoomForm(v)
    ensures forall f :: f in fields <==> Fails(v, f)
    ensures BreakFastPrice !in fields
  {
    var r := FailingFields(v, SchemaOrder);
    SchemaOrderComplete();
    assert r != [] ==> Fails(v, r[0]);
    r
  }

  /** Every field appears in the schema order. */
  lemma SchemaOrderComplete()
    ensures forall f :: f in SchemaOrder
  {
    forall f ensures f in SchemaOrder {
      match f
      case Title => assert SchemaOrder[0] == f;
      case Description => assert SchemaOrder[1] == f;
      case BedCount => assert SchemaOrder[2] == f;
      case GuestCount => assert SchemaOrder[3] == f;
      case BathroomCount => assert SchemaOrder[4] == f;
      case KingBed => assert SchemaOrder[5] == f;
      case QueenBed => assert SchemaOrder[6] == f;
      case Image => assert SchemaOrder[7] == f;
      case BreakFastPrice => assert SchemaOrder[8] == f;
      case RoomPrice => assert SchemaOrder[9] == f;
    }
  }

  /** The breakfast price and the amenities never decide validity, whatever their value. */
  lemma OptionalFieldsIrrelevant(v: RoomFormValues, breakFastPrice: Option<int>, amenities: RoomAmenities)
    ensures ValidRoomForm(v.(breakFastPrice := breakFastPrice, amenities := amenities)) == ValidRoomForm(v)
  {
    var w := v.(breakFastPrice := breakFastPrice, amenities := amenities);
    forall f ensures Fails(w, f) == Fails(v, f) {
    }
  }

  const NoAmenities: RoomAmenities := RoomAmenities(
    Some(false), Some(false), Some(false), Some(false), Some(false),
    Some(false), Some(false), Some(false), Some(false), Some(false))

  /** The default values of a new room. */
  const NewRoomValues: RoomFormValues :=
    RoomFormValues("", "", 0, 0, 0, 0, 0, "", Some(0), 0, NoAmenities)

  /** The new-room zeros fail the three count rules and the price rule; the bed-type counts pass. */
  lemma NewRoomDefaultsInvalid()
    ensures !ValidRoomForm(NewRoomValues)
    ensures var issues := RoomFormIssues(NewRoomValues);
      && BedCount in issues && GuestCount in issues && BathroomCount in issues && RoomPrice in issues
      && KingBed !in issues && QueenBed !in issues
  {
  }

  /** The `hotel` and `room` props that matter here: their ids and the room's stored values. */
  datatype HotelRef = HotelRef(id: string)
  datatype ExistingRoom = ExistingRoom(id: string, values: RoomFormValues)

  /** The body sent: the form values, plus `hotelId` when creating. */
  datatype RoomPayload = RoomPayload(values: RoomFormValues, hotelId: Option<string>)

  /** `onSubmit`'s branch: PATCH with both props, POST with a hotel only, nothing without a hotel. */
  function SubmitRequest(hotel: Option<HotelRef>, room: Option<ExistingRoom>, values: RoomFormValues)
    : (r: Option<Request<RoomPayload>>)
    ensures r.None? <==> hotel.None?
    ensures r.Some? ==> r.value.body.values == values
    ensures r.Some? && room.Some? ==> r.value == Request(Patch, "/api/room/" + room.value.id, RoomPayload(values, None))
    ensures r.Some? && room.None? ==> r.value == Request(Post, "/api/room", RoomPayload(values, Some(hotel.value.id)))
  {
    if hotel.Some? && room.Some? then
      Some(Request(Patch, "/api/room/" + room.value.id, RoomPayload(values, None)))
    else if hotel.None? then None
    else Some(Request(Post, "/api/room", RoomPayload(values, Some(hotel.value.id))))
  }

  const RoomMessages: ImageMessages := ImageMessages(
    "\U{1F389} Gambar berhasil diunggah!", "Gagal mengunggah gambar!",
    "Gambar berhasil dihapus!", "Gagal menghapus gambar")

  /** The form component's state; `dialog` is the parent's flag behind `handleDialogueOpen`. */
  class RoomForm {
    const hotel: Option<HotelRef>
    const room: Option<ExistingRoom>
    var isLoading: bool
    ghost var pending: bool
    const picture: ImageField
    const dialog: DialogState

    ghost predicate Valid()
      reads this, picture
    {
      picture.Valid()
    }

    constructor (hotel: Option<HotelRef>, room: Option<ExistingRoom>, dialog: DialogState)
      ensures Valid() && fresh(picture)
      ensures this.hotel == hotel && this.room == room && this.dialog == dialog
      ensures !isLoading && !pending
      ensures picture.image == (if room.Some? then Some(room.value.values.image) else None)
    {
      this.hotel := hotel;
      this.room := room;
      this.dialog := dialog;
      isLoading := false;
      pending := false;
      picture := new ImageField(if room.Some? then Some(room.value.values.image) else None, RoomMessages);
    }

    /**
     * `form.handleSubmit(onSubmit)`. Valid values set `isLoading` first; with
     * no hotel the handler then returns early, so `isLoading` stays true and
     * nothing is sent.
     */
    method Submit(values: RoomFormValues) returns (request: Option<Request<RoomPayload>>)
      modifies this`isLoading, this`pending
      ensures !ValidRoomForm(values) ==> request.None? && isLoading == old(isLoading) && pending == old(pending)
      ensures ValidRoomForm(values) ==> isLoading && request == SubmitRequest(hotel, room, values)
      ensures ValidRoomForm(values) ==> pending == hotel.Some?
    {
      if RoomFormIssues(values) != [] {
        return None;
      }
      isLoading := true;
      if hotel.Some? && room.Some? {
        request := Some(Request(Patch, "/api/room/" + room.value.id, RoomPayload(values, None)));
      } else {
        if hotel.None? {
          pending := false;
          return None;
        }
        request := Some(Request(Post, "/api/room", RoomPayload(values, Some(hotel.value.id))));
      }
      pending := true;
    }

    /**
     * The `then` or `catch` callback. Success clears `isLoading` and toggles
     * the dialog once; failure clears `isLoading` and leaves the dialog.
     */
    method SubmitSettled(succeeded: bool) returns (toast: Toast)
      requires pending
      modifies this`isLoading, this`pending, dialog
      ensures !isLoading && !pending
      ensures dialog.open == (if succeeded then !old(dialog.open) else old(dialog.open))
      ensures succeeded ==>
        toast == Toast(SuccessToast, if room.Some? then "\U{1F389} Kamar berhasil diperbarui" else "\U{1F389} Kamar berhasil dibuat")
      ensures !succeeded ==> toast == Toast(DestructiveToast, "Terjadi kesalahan!")
    {
      if succeeded {
        toast := Toast(SuccessToast, if room.Some? then "\U{1F389} Kamar berhasil diperbarui" else "\U{1F389} Kamar berhasil dibuat");
        isLoading := false;
        dialog.Toggle();
      } else {
        toast := Toast(DestructiveToast, "Terjadi kesalahan!");
        isLoading := false;
      }
      pending := false;
    }

    /** `handleRemoveImage`, delegated to the image cell. */
    method RemoveImage(deleteSucceeds: bool) returns (request: Option<Request<string>>, toast: Option<Toast>)
      requires Valid()
      modifies picture
      ensures Valid()
      ensures request.Some? <==> HasRemovableKey(old(picture.image))
      ensures request.None? ==> picture.image == old(picture.image) && picture.formValue == old(picture.formValue)
      ensures request.Some? ==> request.value == Request(Post, DeletePath, RemovalKey(old(picture.image)).value)
      ensures request.None? ==> toast.None?
      ensures request.Some? && deleteSucceeds ==> picture.image == Some("") && picture.formValue == ""
      ensures request.Some? && deleteSucceeds ==> toast == Some(Toast(SuccessToast, picture.messages.removed))
      ensures request.Some? && !deleteSucceeds ==> picture.image == old(picture.image) && picture.formValue == old(picture.formValue)
      ensures request.Some? && !deleteSucceeds ==> toast == Some(Toast(DestructiveToast, picture.messages.removeFailed))
    {
      request, toast := picture.Remove(deleteSucceeds);
    }
  }
}
