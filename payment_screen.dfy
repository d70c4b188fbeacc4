/** The payment screen (components/PaymentScreen.tsx): the price of the booked party
    and the choice between card and bank transfer, which decides whether the booking
    is reported as confirmed or as pending. */
module PaymentScreen {
  import opened Types
  import BookingScreen
  import Constants

  /** The message the transfer option passes to `onPaymentSuccess`. */
  const PendingTransferMessage := "Tu reserva está pendiente. Por favor, envía el comprobante por el chat para confirmar."

  /** `getPricePerPerson`: one rider pays the individual price, two the group-of-two
      price, and any other party size the group-of-three price. */
  function PricePerPerson(partySize: int, pricing: Pricing): (price: real)
    ensures partySize == 1 ==> price == pricing.individual
    ensures partySize == 2 ==> price == pricing.group2
    ensures partySize != 1 && partySize != 2 ==> price == pricing.group3
  {
    if partySize == 1 then pricing.individual
    else if partySize == 2 then pricing.group2
    else pricing.group3
  }

  /** `totalPrice`. */
  function TotalPrice(partySize: int, pricing: Pricing): real
  {
    PricePerPerson(partySize, pricing) * partySize as real
  }

  /** For every party the booking screen can confirm (one to three bikes) the payment
      screen asks for the same total the booking screen showed; the two screens part
      ways only outside that range, where the booking screen shows 0 and the payment
      screen charges the group-of-three price per person. */
  lemma TotalAgreesWithBooking(partySize: int, pricing: Pricing)
    ensures 1 <= partySize <= 3 ==>
      TotalPrice(partySize, pricing) == BookingScreen.TotalPrice(partySize, pricing)
    ensures !(1 <= partySize <= 3) ==>
      BookingScreen.TotalPrice(partySize, pricing) == 0.0 &&
      TotalPrice(partySize, pricing) == pricing.group3 * partySize as real
  {
  }

  /** With the seed prices, a larger party never pays more per person, and never
      less in total. */
  lemma SeedPricesFavourGroups(partySize: int)
    requires 1 <= partySize < 3
    ensures PricePerPerson(partySize + 1, Constants.InitialPricing) < PricePerPerson(partySize, Constants.InitialPricing)
    ensures TotalPrice(partySize + 1, Constants.InitialPricing) > TotalPrice(partySize, Constants.InitialPricing)
  {
  }

  /** The screen's state: the payment method currently chosen. */
  class PaymentForm {
    var paymentMethod: PaymentMethod

    constructor ()
      ensures paymentMethod == Card
    {
      paymentMethod := Card;
    }

    /** The two method buttons. */
    method SelectMethod(m: PaymentMethod)
      modifies this
      ensures paymentMethod == m
    {
      paymentMethod := m;
    }

    /** `handleFinalizeBooking`: the argument passed to `onPaymentSuccess` — none for a
        card payment, the pending-transfer notice for a transfer. */
    method FinalizeBooking() returns (message: Option<string>)
      ensures message.None? <==> paymentMethod == Card
      ensures message.Some? ==> message.value == PendingTransferMessage && |message.value| > 0
    {
      if paymentMethod == Card {
        message := None;
      } else {
        message := Some(PendingTransferMessage);
      }
    }
  }
}
