/** Order submission: the guards checked before the order-submission service
    is contacted, the user-facing messages, the translation of the
    service's error codes, and the contract of the simulated service. */
module Submission {
  import opened Models
  import opened Ledger

  const EmptyCartMessage := "Корзина пуста"
  const MinimumAmountMessage := "Минимальная сумма заказа 1000 рублей"
  const ServiceUnavailableMessage := "Сервис временно недоступен. Пожалуйста, попробуйте позже."
  const ProcessingFailedMessage := "Произошла ошибка при обработке заказа"
  const SendFailedMessage := "Ошибка при отправке заказа"
  const LoadFailedMessage := "Ошибка загрузки товаров"

  /** The code used when the service reports a failure without one. */
  const UnknownErrorCode := "Неизвестная ошибка"

  const ServerUnavailable := "SERVER_UNAVAILABLE"
  const MinimumAmountNotReached := "MINIMUM_AMOUNT_NOT_REACHED"

  /** What `submitOrder` resolves to. */
  datatype OrderResult = OrderResult(success: bool, error: Option<string>)

  /** How the call to the order-submission service ends: it responds with
      a success flag and perhaps an error code, or it throws. */
  datatype ServiceOutcome = Responded(success: bool, code: Option<string>) | Threw

  /** `translateError`: the two known codes get their own messages, every
      other code the generic one. */
  function TranslateError(code: string): (r: string)
    ensures r == ServiceUnavailableMessage <==> code == ServerUnavailable
    ensures r == MinimumAmountMessage <==> code == MinimumAmountNotReached
    ensures r == ProcessingFailedMessage <==> code != ServerUnavailable && code != MinimumAmountNotReached
  {
    if code == ServerUnavailable then ServiceUnavailableMessage
    else if code == MinimumAmountNotReached then MinimumAmountMessage
    else ProcessingFailedMessage
  }

  /** The code handed to `translateError` on a failed response: the
      service's code, or the unknown-error code when it is missing or
      empty (JavaScript's `||` treats the empty string as missing). */
  function FailureCode(code: Option<string>): (r: string)
    ensures r != ""
    ensures code.Some? && code.value != "" ==> r == code.value
  {
    if code.Some? && code.value != "" then code.value else UnknownErrorCode
  }

  /** The guards of `submitOrder`, in the order they are checked: the
      message to report, or None when the order may be sent. */
  function CheckOrder(lines: seq<CartItem>): (r: Option<string>)
    ensures r.None? <==> IsMinimumOrderMet(lines)
    ensures r == Some(EmptyCartMessage) <==> lines == []
    ensures r == Some(MinimumAmountMessage) <==> lines != [] && !IsMinimumOrderMet(lines)
  {
    if |lines| == 0 then Some(EmptyCartMessage)
    else if !IsMinimumOrderMet(lines) then Some(MinimumAmountMessage)
    else None
  }

  /** The responses the simulated service can give: SERVER_UNAVAILABLE at
      random; otherwise MINIMUM_AMOUNT_NOT_REACHED below the minimum
      amount and success at or above it. It never throws. */
  ghost predicate ServiceMayRespond(order: Order, outcome: ServiceOutcome) {
    || outcome == Responded(false, Some(ServerUnavailable))
    || (order.totalAmount < MinimumOrder && outcome == Responded(false, Some(MinimumAmountNotReached)))
    || (order.totalAmount >= MinimumOrder && outcome == Responded(true, None))
  }

  /** An order that passed the store's own guards is never refused by the
      simulated service for its amount: it succeeds, or fails with the
      availability message. */
  lemma GuardedOrderOutcome(order: Order, outcome: ServiceOutcome)
    requires order.totalAmount >= MinimumOrder
    requires ServiceMayRespond(order, outcome)
    ensures outcome.Responded?
    ensures outcome.success || TranslateError(FailureCode(outcome.code)) == ServiceUnavailableMessage
  {
  }
}
