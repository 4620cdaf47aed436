/** The errors the payment services raise.  Each constructor stands for one
    message (or one family of messages) of the source; the HTTP exception class
    that wraps it is not modelled. */
module Errors {

  datatype Error =
    | UserNotFound                 // 'error.user_not_found'
    | NotEnoughDeposit             // 'error.not_enough_deposit'
    | MissingRecord                // a JavaScript TypeError: a property read on a lookup that returned null
    | Processor(message: string)   // a Stripe or PayPal failure, passed through with its message
    | HoldingStatus                // 'Your transaction is in holding status. ...'
    | StripeCustomerNotExist       // 'error.stripe_customer_not_exist'
    | MissingDefaultPaymentMethod  // 'error.stripe_missing_default_payment_method'
    | NoStripeCustomerId           // 'User does not have stripe customer id'
    | NotCardOwner                 // 'You are not owner of this card'
    | CardAlreadyApproved          // 'Your card has already approved'
    | ActiveCardPaymentNotFound    // 'payment of active card is not found'
    | PaymentNotCompleted          // 'Please complete your payment before continue'
    | IntentNotCompleted           // 'Please complete this payment before continue'
    | OtpInvalid                   // 'Your OTP is invalid'
    | OtpExpired                   // 'Your OTP has expired. Please try again later'
    | PaymentVerificationFailed    // 'Payment verification failed. Please try again later'
    | DuplicateCustomerId          // the unique index on billings.stripe.customerId refused a write

}
