/**
 * The hotel detail view: its state cells (image modal, stay dates, guest and
 * room counts), the availability request its booking button sends, the one
 * outcome each response leads to, and the `min` rules of the date inputs.
 */
module HotelDetail {
  import opened Wrappers
  import opened Text

  /** One offer of the availability endpoint: flat string-keyed fields. */
  type Offer = map<string, string>

  /** The availability request: the path carries the hotel id, the rest are query parameters. */
  datatype AvailabilityQuery = AvailabilityQuery(
    path: string, checkin: string, checkout: string, guestPerRoom: int, numberOfRoom: int)

  /** What the request produced: a response with a status and maybe an `offer_list`, or a thrown error. */
  datatype AvailabilityResponse = Responded(status: int, offerList: Option<seq<Offer>>) | Threw

  /** The one observable effect of a booking attempt. */
  datatype BookingOutcome = Navigate(url: string) | Alert(message: string)

  const AvailabilityBase: string := "https://project-technical-test-api.up.railway.app/stay/availability/"
  const NoOffersMessage: string := "No offers available."
  const FailedMessage: string := "Failed to retrieve booking data."
  const ErrorMessage: string := "An error occurred, please try again."

  /** The request built from the hotel id and the four current state values, none of them checked. */
  function AvailabilityRequest(hotelId: string, checkin: string, checkout: string, guestPerRoom: int, numberOfRoom: int)
    : (q: AvailabilityQuery)
    ensures |q.path| == |AvailabilityBase| + |hotelId|
    ensures q.path[..|AvailabilityBase|] == AvailabilityBase && q.path[|AvailabilityBase|..] == hotelId
    ensures q.checkin == checkin && q.checkout == checkout
    ensures q.guestPerRoom == guestPerRoom && q.numberOfRoom == numberOfRoom
  {
    AvailabilityQuery(AvailabilityBase + hotelId, checkin, checkout, guestPerRoom, numberOfRoom)
  }

  /**
   * `handleBooking`'s decision. `encode` stands for
   * `new URLSearchParams(offer).toString()`.
   */
  function ClassifyBooking(response: AvailabilityResponse, encode: Offer -> string): (o: BookingOutcome)
    ensures o.Navigate? <==>
      response.Responded? && response.status == 200 && response.offerList.Some? && |response.offerList.value| > 0
    ensures o.Navigate? ==> o.url == "/BookingDetail?" + encode(response.offerList.value[0])
    ensures o == Alert(NoOffersMessage) <==>
      response.Responded? && response.status == 200 && (response.offerList.None? || response.offerList.value == [])
    ensures o == Alert(FailedMessage) <==> response.Responded? && response.status != 200
    ensures o == Alert(ErrorMessage) <==> response.Threw?
  {
    match response
    case Threw => Alert(ErrorMessage)
    case Responded(status, offerList) =>
      if status == 200 then
        if offerList.Some? && |offerList.value| > 0 then
          Navigate("/BookingDetail?" + encode(offerList.value[0]))
        else Alert(NoOffersMessage)
      else Alert(FailedMessage)
  }

  /** Only the first offer is forwarded: the rest of the list never matters. */
  lemma OnlyFirstOfferMatters(status: int, first: Offer, rest1: seq<Offer>, rest2: seq<Offer>, encode: Offer -> string)
    ensures ClassifyBooking(Responded(status, Some([first] + rest1)), encode)
         == ClassifyBooking(Responded(status, Some([first] + rest2)), encode)
  {
  }

  /** `new Date().toISOString().split("T")[0]`: the date part of an ISO timestamp. */
  function Today(isoTimestamp: string): (today: string)
    ensures 'T' !in today
    ensures |today| <= |isoTimestamp| && isoTimestamp[..|today|] == today
    ensures 'T' !in isoTimestamp ==> today == isoTimestamp
    ensures 'T' in isoTimestamp ==> isoTimestamp[|today|] == 'T'
  {
    SplitPiecesFree(isoTimestamp, 'T');
    FirstPiece(isoTimestamp, 'T');
    Split(isoTimestamp, 'T')[0]
  }

  /** The check-in input's `min`. */
  function CheckinMin(today: string): string
  {
    today
  }

  /** The check-out input's `min`: `checkin || today`. */
  function CheckoutMin(checkin: string, today: string): string
  {
    if checkin != "" then checkin else today
  }

  /**
   * With dates the inputs accept (check-in not before today, check-out not
   * before its minimum), check-out is on or after both check-in and today.
   */
  lemma {:induction false} AcceptedDatesOrdered(today: string, checkin: string, checkout: string)
    requires checkin == "" || LexLeq(CheckinMin(today), checkin)
    requires LexLeq(CheckoutMin(checkin, today), checkout)
    ensures LexLeq(today, checkout)
    ensures checkin != "" ==> LexLeq(checkin, checkout)
  {
    if checkin != "" {
      LexLeqTransitive(today, checkin, checkout);
    }
  }

  /** The check-out minimum never precedes the check-in minimum for an accepted check-in. */
  lemma {:induction false} CheckoutMinNotBeforeToday(today: string, checkin: string)
    requires checkin == "" || LexLeq(today, checkin)
    ensures LexLeq(CheckinMin(today), CheckoutMin(checkin, today))
  {
    if checkin == "" {
      LexLeqReflexive(today);
    }
  }

  /** The component's state cells. */
  class HotelDetailView {
    const hotelId: string
    var isModalOpen: bool
    var checkin: string
    var checkout: string
    var guestPerRoom: int
    var numberOfRoom: int

    /** The initial state: modal closed, no dates, one guest, one room. */
    constructor (hotelId: string)
      ensures this.hotelId == hotelId && !isModalOpen
      ensures checkin == "" && checkout == "" && guestPerRoom == 1 && numberOfRoom == 1
    {
      this.hotelId := hotelId;
      isModalOpen := false;
      checkin := "";
      checkout := "";
      guestPerRoom := 1;
      numberOfRoom := 1;
    }

    /** `openModal`: open, nothing else touched; calling it again changes nothing. */
    method OpenModal()
      modifies this`isModalOpen
      ensures isModalOpen
    {
      isModalOpen := true;
    }

    /** `closeModal`. */
    method CloseModal()
      modifies this`isModalOpen
      ensures !isModalOpen
    {
      isModalOpen := false;
    }

    method SetCheckin(value: string)
      modifies this`checkin
      ensures checkin == value
    {
      checkin := value;
    }

    method SetCheckout(value: string)
      modifies this`checkout
      ensures checkout == value
    {
      checkout := value;
    }

    /** `setGuestPerRoom(Number(e.target.value))`: the number is taken as typed, unchecked. */
    method SetGuestPerRoom(value: int)
      modifies this`guestPerRoom
      ensures guestPerRoom == value
    {
      guestPerRoom := value;
    }

    method SetNumberOfRoom(value: int)
      modifies this`numberOfRoom
      ensures numberOfRoom == value
    {
      numberOfRoom := value;
    }

    /**
     * `handleBooking`: send the request built from the current state to the
     * (abstract) availability endpoint and act on its response. The view's
     * state is left as it was.
     */
    method HandleBooking(endpoint: AvailabilityQuery -> AvailabilityResponse, encode: Offer -> string)
      returns (query: AvailabilityQuery, outcome: BookingOutcome)
      ensures query == AvailabilityRequest(hotelId, checkin, checkout, guestPerRoom, numberOfRoom)
      ensures outcome == ClassifyBooking(endpoint(query), encode)
      ensures outcome.Navigate? ==> endpoint(query).Responded? && endpoint(query).status == 200
    {
      query := AvailabilityRequest(hotelId, checkin, checkout, guestPerRoom, numberOfRoom);
      var response := endpoint(query);
      outcome := ClassifyBooking(response, encode);
    }
  }

  /** Opening twice is opening once, and closing leaves the dates and counts alone. */
  method ModalRoundTrip(view: HotelDetailView)
    modifies view
    ensures !view.isModalOpen
    ensures view.checkin == old(view.checkin) && view.checkout == old(view.checkout)
    ensures view.guestPerRoom == old(view.guestPerRoom) && view.numberOfRoom == old(view.numberOfRoom)
  {
    view.OpenModal();
    view.OpenModal();
    assert view.isModalOpen;
    view.CloseModal();
  }
}
