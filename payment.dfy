/**
 * The payment screen and `launchRazorpay`. The payment provider is not
 * modelled: whether the `try` block throws before `onSuccess` runs (in
 * `checkout.open` or in showing the toast) is an input, and the host is
 * either an Activity or some other context.
 */
module Payment {
  import opened Wrappers
  import opened KotlinText

  /** What `context as? Activity` finds. */
  datatype Host = ActivityHost | OtherContext

  /** Whether the `try` block throws before it reaches `onSuccess()`. */
  datatype OpenResult = Opens | Throws

  /** The three callbacks `launchRazorpay` may run. */
  datatype Callback = OnSuccess | OnError | OnComplete

  /** The JSON values the checkout options are built from. */
  datatype Json = JStr(s: string) | JInt(n: int) | JObj(fields: map<string, Json>)

  const Currency: string := "INR"
  const Description: string := "Food Order"
  const ThemeColor: string := "#FC7303"
  const PaisePerRupee: int := 100

  /** `amount * 100` on Kotlin's 32-bit `Int`. */
  function PaiseAmount(amount: int): (r: int)
    ensures -TwoTo31 <= amount * PaisePerRupee < TwoTo31 ==> r == amount * PaisePerRupee
    ensures -TwoTo31 <= r < TwoTo31
  {
    ToInt32(amount * PaisePerRupee)
  }

  /**
   * The options object handed to `checkout.open`: exactly six keys, the
   * fixed description and theme colour, and an amount that fits an `Int`.
   */
  function CheckoutOptions(amount: int, userName: string, userPhone: string): (r: map<string, Json>)
    ensures r.Keys == {"name", "description", "currency", "amount", "prefill", "theme"}
    ensures r["description"] == JStr("Food Order")
    ensures r["theme"] == JObj(map["color" := JStr("#FC7303")])
    ensures r["amount"].JInt? && -TwoTo31 <= r["amount"].n < TwoTo31
  {
    map[
      "name" := JStr(userName),
      "description" := JStr(Description),
      "currency" := JStr(Currency),
      "amount" := JInt(PaiseAmount(amount)),
      "prefill" := JObj(map["contact" := JStr(userPhone)]),
      "theme" := JObj(map["color" := JStr(ThemeColor)])
    ]
  }

  /**
   * For any amount the request carries the payer's name and phone and the
   * currency INR, and has no field for the delivery address; the amount is
   * in paise whenever `amount * 100` fits an `Int`, which covers every
   * price the app can charge, wrapped ones included.
   */
  lemma OptionsCarryPayer(amount: int, userName: string, userPhone: string)
    ensures "address" !in CheckoutOptions(amount, userName, userPhone)
    ensures -21474836 <= amount <= 21474836 ==>
              CheckoutOptions(amount, userName, userPhone)["amount"] == JInt(amount * 100)
    ensures CheckoutOptions(amount, userName, userPhone)["currency"] == JStr("INR")
    ensures CheckoutOptions(amount, userName, userPhone)["name"] == JStr(userName)
    ensures CheckoutOptions(amount, userName, userPhone)["prefill"].fields["contact"] == JStr(userPhone)
  {
  }

  /**
   * `launchRazorpay`. Without an Activity it returns at once and runs no
   * callback. Otherwise it builds the options by successive `put`s and opens
   * checkout; if nothing throws, `onSuccess` runs straight away, whatever the
   * payment's real outcome; if something throws, `onError` runs instead; in
   * both cases `onComplete` runs last (the `finally` block).
   */
  method LaunchRazorpay(host: Host, amount: int, userName: string, userPhone: string, open: OpenResult)
    returns (request: Option<map<string, Json>>, trace: seq<Callback>)
    ensures host.OtherContext? ==> request.None? && trace == []
    ensures host.ActivityHost? ==> request == Some(CheckoutOptions(amount, userName, userPhone))
    ensures host.ActivityHost? && open.Opens? ==> trace == [OnSuccess, OnComplete]
    ensures host.ActivityHost? && open.Throws? ==> trace == [OnError, OnComplete]
  {
    if host.OtherContext? {
      return None, [];
    }
    var options: map<string, Json> := map[];
    options := options["name" := JStr(userName)];
    options := options["description" := JStr(Description)];
    options := options["currency" := JStr(Currency)];
    options := options["amount" := JInt(PaiseAmount(amount))];
    options := options["prefill" := JObj(map["contact" := JStr(userPhone)])];
    options := options["theme" := JObj(map["color" := JStr(ThemeColor)])];
    request := Some(options);
    trace := [];
    if open.Opens? {
      trace := trace + [OnSuccess];
    } else {
      trace := trace + [OnError];
    }
    trace := trace + [OnComplete];
  }

  class PaymentScreen {
    const amount: int
    const userName: string
    const userPhone: string
    const userAddress: string
    /** `isPaying`: while set the screen shows a spinner instead of the Pay button. */
    var isPaying: bool

    constructor(amount: int, userName: string, userPhone: string, userAddress: string)
      ensures this.amount == amount && this.userName == userName
      ensures this.userPhone == userPhone && this.userAddress == userAddress
      ensures !isPaying
    {
      this.amount := amount;
      this.userName := userName;
      this.userPhone := userPhone;
      this.userAddress := userAddress;
      isPaying := false;
    }

    /** The Pay button is on screen only while no payment is in progress. */
    predicate PayOffered()
      reads this
    {
      !isPaying
    }

    /** Pressing Pay, which is offered only while not paying, sets `isPaying` before the launch. */
    method StartPaying()
      requires PayOffered()
      modifies this`isPaying
      ensures isPaying && !PayOffered()
    {
      isPaying := true;
    }

    /** The `onComplete` callback clears `isPaying`, so the Pay button is offered again. */
    method Completed()
      modifies this`isPaying
      ensures !isPaying && PayOffered()
    {
      isPaying := false;
    }
  }
}
