/**
 * The activity's navigation graph as a state machine. The state is the
 * back stack of routes and the four session variables the route callbacks
 * capture (`selectedMeal`, `userName`, `userPhone`, `userAddress`); each
 * callback is a method. A callback can only run while its screen is on top
 * of the back stack, which every method requires.
 */
module Navigation {
  import opened Wrappers
  import opened KotlinText
  import opened Catalog
  import AddressForm
  import Payment

  /** The destinations `home`, `detail`, `address`, `payment` and `search/{q}`. */
  datatype Route = HomeRoute | DetailRoute | AddressRoute | PaymentRoute | SearchRoute(query: string)

  /** Whether `next` may sit directly above `below`: the `navigate` calls the app makes. */
  predicate CanFollow(below: Route, next: Route) {
    match next
    case HomeRoute => false
    case DetailRoute => below.HomeRoute? || below.SearchRoute?
    case SearchRoute(q) => below.HomeRoute? && !IsBlank(q) && RoutableQuery(q)
    case AddressRoute => below.DetailRoute?
    case PaymentRoute => below.AddressRoute?
  }

  /**
   * `search/$query` matches `search/{q}` only when the argument `{q}` takes
   * at least one character that is not '/', and no '/' follows before a
   * later '?' or '#': from those on the route string is read as query or
   * fragment, not as path. The first character always belongs to `{q}`,
   * even when it is '?' or '#'.
   */
  predicate RoutableQuery(q: string) {
    q != [] && q[0] != '/' && '/' !in PathPart(q[1..])
  }

  /** The part of `q` before its first '?' or '#'. */
  function PathPart(q: string): (r: string)
    ensures |r| <= |q| && r == q[..|r|]
    ensures forall i :: 0 <= i < |r| ==> r[i] != '?' && r[i] != '#'
    ensures |r| < |q| ==> q[|r|] == '?' || q[|r|] == '#'
  {
    if q == [] || q[0] == '?' || q[0] == '#' then []
    else [q[0]] + PathPart(q[1..])
  }

  /**
   * A '/' in the path part makes the route unmatched; after a later '?' it
   * is part of the query string and does no harm; a leading '?' is part of
   * the argument, so a '/' after it still breaks the match.
   */
  lemma RoutableQueryExamples()
    ensures RoutableQuery("curry")
    ensures !RoutableQuery("a/b")
    ensures RoutableQuery("pasta?/x")
    ensures !RoutableQuery("?/x")
  {
    var p := PathPart("/b");
    assert "a/b"[1..] == "/b";
    assert p[0] == '/';
    assert "pasta?/x"[1..] == "asta?/x";
    p := PathPart("asta?/x");
    assert "asta?/x"[4] == '?';
    assert |p| <= 4;
    assert forall i :: 0 <= i < |p| ==> p[i] == "asta"[i];
    assert "curry"[1..] == "urry";
    p := PathPart("urry");
    assert forall i :: 0 <= i < |p| ==> p[i] == "urry"[i];
    assert "?/x"[1..] == "/x";
    assert PathPart("/x")[0] == '/';
  }

  /**
   * What `onSearch` does: nothing for a blank query, the results screen
   * pushed, or `navigate` throwing because no destination matches.
   */
  datatype SearchOutcome = SearchIgnored | SearchShown | NavigateThrew

  /** A back stack the app can build: `home` at the bottom, every entry pushed by one of its callbacks. */
  predicate WellFormed(stack: seq<Route>) {
    |stack| > 0 && stack[0] == HomeRoute &&
    forall i :: 0 < i < |stack| ==> CanFollow(stack[i - 1], stack[i])
  }

  /** The index of the topmost entry for `route`, or -1 when there is none. */
  function LastIndexOf(stack: seq<Route>, route: Route): (r: int)
    ensures -1 <= r < |stack|
    ensures r >= 0 ==> stack[r] == route
    ensures forall j :: r < j < |stack| ==> stack[j] != route
  {
    if stack == [] then -1
    else if stack[|stack| - 1] == route then |stack| - 1
    else LastIndexOf(stack[..|stack| - 1], route)
  }

  /** `popBackStack()`: drops the top entry. */
  function Pop(stack: seq<Route>): (r: seq<Route>)
    requires |stack| > 0
    ensures |r| == |stack| - 1 && r + [stack[|stack| - 1]] == stack
  {
    stack[..|stack| - 1]
  }

  /**
   * `navigate("home") { popUpTo("home") { inclusive = true } }`: every entry
   * from the topmost `home` up is removed, then a fresh `home` is pushed.
   */
  function NavigateHome(stack: seq<Route>): (r: seq<Route>)
    ensures 1 <= |r| <= |stack| + 1 && r[|r| - 1] == HomeRoute
    ensures r[..|r| - 1] == stack[..|r| - 1]
    ensures HomeRoute !in stack ==> r == stack + [HomeRoute]
    ensures HomeRoute in stack ==> |r| <= |stack|
    ensures HomeRoute in stack ==> stack[|r| - 1] == HomeRoute && HomeRoute !in stack[|r|..]
  {
    var i := LastIndexOf(stack, HomeRoute);
    (if i >= 0 then stack[..i] else stack) + [HomeRoute]
  }

  /**
   * `popBackStack(route, false)`: removes the entries above the topmost
   * `route`; when `route` is not on the stack nothing happens.
   */
  function PopBackTo(stack: seq<Route>, route: Route): (r: seq<Route>)
    ensures |r| <= |stack| && r == stack[..|r|]
    ensures route !in stack ==> r == stack
    ensures route in stack ==> |r| >= 1
    ensures route in stack ==> r[|r| - 1] == route && route !in stack[|r|..]
  {
    var i := LastIndexOf(stack, route);
    if i >= 0 then stack[..i + 1] else stack
  }

  /** On a well-formed stack `home` occurs only at the bottom, so going home leaves exactly [home]. */
  lemma NavigateHomeCollapses(stack: seq<Route>)
    requires WellFormed(stack)
    ensures NavigateHome(stack) == [HomeRoute]
  {
    assert forall j :: 0 < j < |stack| ==> stack[j] != HomeRoute by {
      forall j | 0 < j < |stack| ensures stack[j] != HomeRoute {
        assert CanFollow(stack[j - 1], stack[j]);
      }
    }
    assert LastIndexOf(stack, HomeRoute) == 0;
  }

  /**
   * With `payment` on top, popping back to `address` removes exactly the
   * payment entry: `address` is then on top and everything below is kept.
   */
  lemma PopBackToAddressFromPayment(stack: seq<Route>)
    requires WellFormed(stack) && stack[|stack| - 1] == PaymentRoute
    ensures |stack| >= 2
    ensures PopBackTo(stack, AddressRoute) == stack[..|stack| - 1]
    ensures PopBackTo(stack, AddressRoute)[|stack| - 2] == AddressRoute
  {
    assert |stack| >= 2 by {
      if |stack| == 1 {
        assert false;
      }
    }
    assert CanFollow(stack[|stack| - 2], stack[|stack| - 1]);
  }

  lemma PushKeepsWellFormed(stack: seq<Route>, next: Route)
    requires WellFormed(stack) && CanFollow(stack[|stack| - 1], next)
    ensures WellFormed(stack + [next])
  {
  }

  lemma PopKeepsWellFormed(stack: seq<Route>)
    requires WellFormed(stack) && |stack| > 1
    ensures WellFormed(Pop(stack))
  {
  }

  class AppNavigator {
    var backStack: seq<Route>
    var selectedMeal: Option<Meal>
    var userName: string
    var userPhone: string
    var userAddress: string
    /** The activity's `MealViewModel`. */
    const catalog: MealViewModel

    /**
     * The stack is one the app can build; `detail` and the screens above it
     * only ever sit on a selected meal; `payment` only on submitted, filled
     * address details.
     */
    ghost predicate Valid()
      reads this
    {
      && WellFormed(backStack)
      && (DetailRoute in backStack ==> selectedMeal.Some?)
      && (PaymentRoute in backStack ==>
            AddressForm.Filled(userName, userPhone, userAddress) && AddressForm.ValidPhone(userPhone))
    }

    function Top(): Route
      reads this
      requires |backStack| > 0
    {
      backStack[|backStack| - 1]
    }

    /** The start destination `home`, no meal selected, empty user details. */
    constructor(catalog: MealViewModel)
      ensures Valid() && this.catalog == catalog
      ensures backStack == [HomeRoute] && selectedMeal == None
      ensures userName == "" && userPhone == "" && userAddress == ""
    {
      this.catalog := catalog;
      backStack := [HomeRoute];
      selectedMeal := None;
      userName, userPhone, userAddress := "", "", "";
    }

    /** Showing `home` issues an all-meals load with the query "". */
    method ShowHome()
      requires Valid() && Top() == HomeRoute
      modifies catalog`pending
      ensures catalog.pending == old(catalog.pending) + multiset{Load(AllMealsCell, "")}
    {
      catalog.LoadAllMeals("");
    }

    /**
     * A meal tapped on `home` or on the search results: it becomes the
     * selected meal and `detail` is pushed.
     */
    method SelectMeal(meal: Meal)
      requires Valid() && (Top() == HomeRoute || Top().SearchRoute?)
      modifies this
      ensures Valid()
      ensures selectedMeal == Some(meal) && backStack == old(backStack) + [DetailRoute]
      ensures userName == old(userName) && userPhone == old(userPhone) && userAddress == old(userAddress)
    {
      PushKeepsWellFormed(backStack, DetailRoute);
      selectedMeal := Some(meal);
      backStack := backStack + [DetailRoute];
    }

    /**
     * The home screen's `onSearch`: a blank query changes nothing. Any other
     * launches a search and navigates to `search/$query`; that route matches
     * the `search/{q}` destination only when `RoutableQuery` holds (no '/'
     * first, and none after the first character before a later '?' or '#'),
     * and otherwise `navigate` throws after the search has been launched.
     */
    method Search(query: string) returns (outcome: SearchOutcome)
      requires Valid() && Top() == HomeRoute
      modifies this, catalog`pending
      ensures Valid()
      ensures outcome == SearchIgnored <==> IsBlank(query)
      ensures outcome == NavigateThrew <==> !IsBlank(query) && !RoutableQuery(query)
      ensures outcome == SearchIgnored ==> catalog.pending == old(catalog.pending)
      ensures outcome != SearchIgnored ==>
                catalog.pending == old(catalog.pending) + multiset{Load(SearchMealsCell, query)}
      ensures outcome == SearchShown ==> backStack == old(backStack) + [SearchRoute(query)]
      ensures outcome != SearchShown ==> backStack == old(backStack)
      ensures selectedMeal == old(selectedMeal)
      ensures userName == old(userName) && userPhone == old(userPhone) && userAddress == old(userAddress)
    {
      if IsBlank(query) {
        return SearchIgnored;
      }
      catalog.SearchMeals(query);
      if !RoutableQuery(query) {
        return NavigateThrew;
      }
      PushKeepsWellFormed(backStack, SearchRoute(query));
      backStack := backStack + [SearchRoute(query)];
      outcome := SearchShown;
    }

    /** The logo: an all-meals load and the stack collapsed to [home]. */
    method LogoClick()
      requires Valid() && Top() == HomeRoute
      modifies this, catalog`pending
      ensures Valid() && backStack == [HomeRoute]
      ensures catalog.pending == old(catalog.pending) + multiset{Load(AllMealsCell, "")}
      ensures selectedMeal == old(selectedMeal)
      ensures userName == old(userName) && userPhone == old(userPhone) && userAddress == old(userAddress)
    {
      catalog.LoadAllMeals("");
      NavigateHomeCollapses(backStack);
      backStack := NavigateHome(backStack);
    }

    /** Back from `detail` pops one entry; the selected meal stays. */
    method DetailBack()
      requires Valid() && Top() == DetailRoute
      modifies this
      ensures Valid() && |old(backStack)| >= 2 && backStack == old(backStack)[..|old(backStack)| - 1]
      ensures selectedMeal == old(selectedMeal)
      ensures userName == old(userName) && userPhone == old(userPhone) && userAddress == old(userAddress)
    {
      assert |backStack| > 1;
      PopKeepsWellFormed(backStack);
      backStack := Pop(backStack);
    }

    /**
     * Add to Cart pushes `address`. The detail screen offers it only for a
     * selected meal, and on `detail` there always is one.
     */
    method AddToCart()
      requires Valid() && Top() == DetailRoute
      modifies this
      ensures Valid() && old(selectedMeal).Some?
      ensures backStack == old(backStack) + [AddressRoute] && selectedMeal == old(selectedMeal)
      ensures userName == old(userName) && userPhone == old(userPhone) && userAddress == old(userAddress)
    {
      PushKeepsWellFormed(backStack, AddressRoute);
      backStack := backStack + [AddressRoute];
    }

    /**
     * The address screen's `onContinue`, which it calls only with a filled
     * form and a digits-only phone: the details are stored and `payment` is
     * pushed.
     */
    method SubmitAddress(name: string, phone: string, address: string)
      requires Valid() && Top() == AddressRoute
      requires AddressForm.Filled(name, phone, address) && AddressForm.ValidPhone(phone)
      modifies this
      ensures Valid()
      ensures userName == name && userPhone == phone && userAddress == address
      ensures backStack == old(backStack) + [PaymentRoute] && selectedMeal == old(selectedMeal)
    {
      PushKeepsWellFormed(backStack, PaymentRoute);
      userName, userPhone, userAddress := name, phone, address;
      backStack := backStack + [PaymentRoute];
    }

    /** `selectedMeal?.priceInr ?: 0`, the amount the payment screen charges. */
    function PaymentAmount(): (r: int)
      reads this
      ensures selectedMeal.None? ==> r == 0
      ensures selectedMeal.Some? ==> r == Price.PriceInr(selectedMeal.value.id)
    {
      match selectedMeal
      case None => 0
      case Some(meal) => meal.PriceInr()
    }

    /**
     * On `payment` there is always a selected meal, so the amount is its
     * rupee price, never the fallback 0 for an unselected meal.
     */
    lemma PaymentChargesSelectedMeal()
      requires Valid() && Top() == PaymentRoute
      ensures selectedMeal.Some? && PaymentAmount() == selectedMeal.value.PriceInr()
      ensures -850 <= PaymentAmount() <= 1700 && PaymentAmount() % 85 == 0
      ensures |selectedMeal.value.id| <= 9 ==> 425 <= PaymentAmount() <= 1700
    {
      assert DetailRoute in backStack by {
        PaymentSitsOnDetail(backStack);
      }
      var id := selectedMeal.value.id;
      if |id| <= 9 {
        Price.ShortIdPriceInRange(id);
      }
    }

    /** Payment success: the stack collapses to [home]; the meal and user details are kept. */
    method PaymentSuccess()
      requires Valid() && Top() == PaymentRoute
      modifies this
      ensures Valid() && backStack == [HomeRoute]
      ensures selectedMeal == old(selectedMeal)
      ensures userName == old(userName) && userPhone == old(userPhone) && userAddress == old(userAddress)
    {
      NavigateHomeCollapses(backStack);
      backStack := NavigateHome(backStack);
    }

    /** Payment error: back to `address`, which pops just the payment entry; nothing else changes. */
    method PaymentError()
      requires Valid() && Top() == PaymentRoute
      modifies this
      ensures Valid() && |old(backStack)| >= 2 && backStack == old(backStack)[..|old(backStack)| - 1]
      ensures Top() == AddressRoute
      ensures selectedMeal == old(selectedMeal)
      ensures userName == old(userName) && userPhone == old(userPhone) && userAddress == old(userAddress)
    {
      PopBackToAddressFromPayment(backStack);
      PopKeepsWellFormed(backStack);
      backStack := PopBackTo(backStack, AddressRoute);
    }

    /**
     * Back from the search results: an all-meals load, the search results
     * emptied and the stack collapsed to [home].
     */
    method SearchBack()
      requires Valid() && Top().SearchRoute?
      modifies this, catalog`pending, catalog`searchMeals
      ensures Valid() && backStack == [HomeRoute]
      ensures catalog.pending == old(catalog.pending) + multiset{Load(AllMealsCell, "")}
      ensures catalog.searchMeals == [] && catalog.allMeals == old(catalog.allMeals)
      ensures selectedMeal == old(selectedMeal)
      ensures userName == old(userName) && userPhone == old(userPhone) && userAddress == old(userAddress)
    {
      catalog.LoadAllMeals("");
      catalog.ClearSearchMeals();
      NavigateHomeCollapses(backStack);
      backStack := NavigateHome(backStack);
    }

    /**
     * Pressing Pay on the payment screen shown for this session: `isPaying` is
     * set, checkout is launched, and the callbacks `launchRazorpay` invokes run
     * in its order: `onPaymentSuccess` or `onPaymentError` on the stack, then
     * `onComplete` on the screen.
     */
    method Pay(screen: Payment.PaymentScreen, host: Payment.Host, open: Payment.OpenResult)
      returns (request: Option<map<string, Payment.Json>>)
      requires Valid() && Top() == PaymentRoute && screen.PayOffered()
      requires screen.amount == PaymentAmount()
      requires screen.userName == userName && screen.userPhone == userPhone && screen.userAddress == userAddress
      modifies this, screen`isPaying
      ensures Valid()
      ensures host.OtherContext? ==>
                request.None? && backStack == old(backStack) && screen.isPaying && !screen.PayOffered()
      ensures host.ActivityHost? ==>
                request == Some(Payment.CheckoutOptions(old(PaymentAmount()), userName, userPhone))
                && !screen.isPaying
      ensures host.ActivityHost? && open.Opens? ==> backStack == [HomeRoute]
      ensures host.ActivityHost? && open.Throws? ==>
                |old(backStack)| >= 2 && backStack == old(backStack)[..|old(backStack)| - 1]
      ensures selectedMeal == old(selectedMeal)
      ensures userName == old(userName) && userPhone == old(userPhone) && userAddress == old(userAddress)
    {
      screen.StartPaying();
      var trace;
      request, trace := Payment.LaunchRazorpay(host, screen.amount, screen.userName, screen.userPhone, open);
      if trace != [] {
        if trace[0] == Payment.OnSuccess {
          PaymentSuccess();
        } else {
          PaymentError();
        }
        screen.Completed();
      }
    }
  }

  /** Below a `payment` entry there are `address` and `detail`. */
  lemma PaymentSitsOnDetail(stack: seq<Route>)
    requires WellFormed(stack) && PaymentRoute in stack
    ensures DetailRoute in stack
  {
    var i :| 0 <= i < |stack| && stack[i] == PaymentRoute;
    assert i > 0;
    assert CanFollow(stack[i - 1], stack[i]);
    assert i - 1 > 0;
    assert CanFollow(stack[i - 2], stack[i - 1]);
  }

  /** The sample recipient of the checkout scenario fills the form. */
  lemma SampleRecipientFilled()
    ensures AddressForm.Filled("A", "9999999999", "X") && AddressForm.ValidPhone("9999999999")
  {
    assert !IsWhitespace("A"[0]) && !IsWhitespace("9999999999"[0]) && !IsWhitespace("X"[0]);
  }

  /**
   * A fresh session: `meal` is chosen on `home`, Add to Cart is pressed and
   * the sample recipient is submitted, so `payment` is on top.
   */
  method StartCheckout(meal: Meal) returns (nav: AppNavigator)
    ensures fresh(nav) && nav.Valid()
    ensures nav.backStack == [HomeRoute, DetailRoute, AddressRoute, PaymentRoute]
    ensures nav.selectedMeal == Some(meal)
  {
    SampleRecipientFilled();
    var catalog := new MealViewModel();
    nav := new AppNavigator(catalog);
    nav.SelectMeal(meal);
    nav.AddToCart();
    nav.SubmitAddress("A", "9999999999", "X");
  }

  /**
   * One press of Pay on a fresh payment screen for the session, with an
   * Activity as host; returns the amount the screen was shown.
   */
  method PayOnce(nav: AppNavigator, open: Payment.OpenResult) returns (amount: int)
    requires nav.Valid() && nav.Top() == PaymentRoute
    modifies nav
    ensures nav.Valid()
    ensures amount == old(nav.PaymentAmount())
    ensures open.Opens? ==> nav.backStack == [HomeRoute]
    ensures open.Throws? ==>
              |old(nav.backStack)| >= 2 && nav.backStack == old(nav.backStack)[..|old(nav.backStack)| - 1]
    ensures nav.selectedMeal == old(nav.selectedMeal)
    ensures nav.userName == old(nav.userName) && nav.userPhone == old(nav.userPhone)
    ensures nav.userAddress == old(nav.userAddress)
  {
    amount := nav.PaymentAmount();
    var screen := new Payment.PaymentScreen(amount, nav.userName, nav.userPhone, nav.userAddress);
    var request := nav.Pay(screen, Payment.ActivityHost, open);
  }

  /**
   * A whole checkout: meal "52772" is chosen, the address is submitted, the
   * first payment attempt throws and returns to `address`, the second opens
   * checkout. Both attempts charge 765 rupees; the session ends on [home]
   * with the meal still selected.
   */
  method CheckoutWithRetry(mealName: string, thumbnail: string)
    returns (firstAmount: int, secondAmount: int, afterError: seq<Route>, finalStack: seq<Route>, selected: Option<Meal>)
    ensures firstAmount == 765 && secondAmount == 765
    ensures afterError == [HomeRoute, DetailRoute, AddressRoute]
    ensures finalStack == [HomeRoute]
    ensures selected == Some(Meal("52772", mealName, thumbnail))
  {
    var meal := Meal("52772", mealName, thumbnail);
    assert meal.PriceInr() == 765 by {
      Price.PriceExamples();
    }
    var nav := StartCheckout(meal);
    firstAmount := PayOnce(nav, Payment.Throws);
    afterError := nav.backStack;
    assert afterError == [HomeRoute, DetailRoute, AddressRoute];

    SampleRecipientFilled();
    nav.SubmitAddress("A", "9999999999", "X");
    secondAmount := PayOnce(nav, Payment.Opens);
    finalStack, selected := nav.backStack, nav.selectedMeal;
  }
}
