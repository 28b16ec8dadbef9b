# Food ordering app: verified model of its ordering logic

This project models the logic underneath an Android food-ordering app. The app
lists meals from a remote catalog and supports search. Checkout runs through
the screens home → detail → address → payment. Compose rendering is not
modelled. What is modelled:

- **Price derivation** (`Price`). The price of a `Meal` is computed from its id.
  The digit characters are kept and read as one number, and `BigInteger.toInt()`
  cuts that number to a signed 32-bit `Int`. Kotlin's `% 16` is applied (its
  remainder takes the sign of the dividend), then 5 is added. The rupee price is
  85 times the dollar price. The 32-bit wrap is modelled as written. An id whose
  digits stay below 2^31 gets a price in [5, 20] dollars, i.e. [425, 1700]
  rupees. An id with nine digits or fewer always does; nothing in the app
  limits an id's length. Larger ids can fall to -10 dollars: `Price.WrappedIdPrice` shows one.
- **Catalog store** (`Catalog`). `MealViewModel` has two independent lists:
  all meals and search results. Each launched coroutine is recorded in
  `pending`. Its completion is a separate event that may come in any order. On
  success it overwrites its own list with the fetched meals; on any failure it
  overwrites it with the empty list. `clearSearchMeals` empties the search list
  at once. `MealRepository.getMeal` returns the first meal of a lookup, or null.
- **Navigation state machine** (`Navigation`). The state is the back stack of
  routes plus the four captured session variables. Every route callback is a
  method. `Valid()` is kept by all of them. It says the stack is one the app
  can build, `detail` always sits on a selected meal, and `payment` always sits
  on filled address details with a digits-only phone. Payment success collapses
  the stack to `[home]` and keeps the meal and the user details. Payment error
  pops back to `address`. A search query that starts with '/', or has a '/'
  after its first character and before any later '?' or '#', matches no
  destination, so `navigate` throws after the search has been launched.
- **Address form** (`AddressForm`). The phone edit is accepted only when the
  raw input has at most 10 UTF-16 code units (Kotlin's `length`), and then
  only its digits are stored.
  `filled` means no field is blank. Continue hands the values on only when the
  form is filled.
- **Payment launch** (`Payment`). With no Activity, `launchRazorpay` returns
  without running any callback, so `isPaying` stays set. Otherwise it builds
  the options by successive `put`s, with the amount in paise and currency INR.
  It then calls `onSuccess` as soon as opening checkout does not throw,
  whatever the real payment outcome; if something throws it calls `onError`.
  Either way `onComplete` runs last and clears `isPaying`.
- **Home widgets** (`Home`). The banner carousel shows the first four
  thumbnails. Its index advances modulo the image count and is reset when out
  of range. It is clamped for display, and the indicator dot whose index equals
  it is highlighted. The search bar's text has Go, Clear and keyboard-search
  actions.

Inputs the model takes as parameters: the result of each remote fetch
(`FetchOutcome`); whether the payment `try` block throws (`OpenResult`); whether
the context is an Activity (`Host`); the number of carousel timer ticks.

The model follows the code, not an idealised checkout flow. Detail-back and payment success do not clear the selected meal. Payment error
does not clear the user details. The stack that payment success produces is
`[home]`.

## Model

| member | source | states |
|---|---|---|
| `KotlinText.Digits` | app/src/main/java/com/example/retrofit/MealData.kt:25 | the `isDigit` filter keeps only digits, never grows, leaves an all-digit string as it is, and gives the empty string when no character is a digit |
| `KotlinText.DigitsAppend` | app/src/main/java/com/example/retrofit/MealData.kt:25 | filtering digits distributes over concatenation |
| `KotlinText.ToInt32` | app/src/main/java/com/example/retrofit/MealData.kt:25 | `toInt()` gives a signed 32-bit value congruent to its input modulo 2^32, equal to it when it fits |
| `KotlinText.Rem` | app/src/main/java/com/example/retrofit/MealData.kt:25 | Kotlin's `%` agrees with the mathematical remainder for non-negative dividends, is odd in the dividend, and is smaller in magnitude than the divisor |
| `Price.DigitValue` | app/src/main/java/com/example/retrofit/MealData.kt:25 | the number a digit string denotes has fewer digits than the string's length allows (below 10^length) |
| `Price.ParsedId` | app/src/main/java/com/example/retrofit/MealData.kt:25 | the parsed id is 0 without digits, a 32-bit value always, and the digit value itself when that is below 2^31 |
| `Price.PriceUsd` | app/src/main/java/com/example/retrofit/MealData.kt:25 | the dollar price is 5 without digits, 5 + value mod 16 in [5, 20] when the value is below 2^31, and always in [-10, 20] |
| `Price.PriceInr` | app/src/main/java/com/example/retrofit/MealData.kt:27 | the rupee price is 85 times the dollar price, in [425, 1700] for values below 2^31 and always in [-850, 1700] |
| `Price.PriceExamples` | app/src/main/java/com/example/retrofit/MealData.kt:25-27 | id "52772" costs 9 dollars / 765 rupees; id "abc" costs 5 / 425 |
| `Price.ShortIdPriceInRange` | app/src/main/java/com/example/retrofit/MealData.kt:25-27 | an id with at most nine digits is never truncated: 5 + value mod 16 dollars, within [5, 20] and [425, 1700] |
| `Price.SameDigitsSamePrice` | app/src/main/java/com/example/retrofit/MealData.kt:25 | two ids with the same digits in the same order get the same prices |
| `Price.NonDigitsIgnored` | app/src/main/java/com/example/retrofit/MealData.kt:25 | inserting characters that are not digits anywhere in an id keeps both prices |
| `Price.WrappedIdPrice` | app/src/main/java/com/example/retrofit/MealData.kt:25-27 | id "2147483649" wraps to a negative Int and costs -10 dollars / -850 rupees |
| `Catalog.ListOrEmpty` | app/src/main/java/com/example/retrofit/MealData.kt:88 | a fetch yields its list on success and the empty list on any failure |
| `Catalog.GetMeal` | app/src/main/java/com/example/retrofit/MealData.kt:65-67 | a lookup returns null exactly for an empty response, otherwise its first meal; a failed call escapes |
| `Catalog.GetMealFromResponse` | app/src/main/java/com/example/retrofit/MealData.kt:65-67 | a returned meal belongs to the response, and a one-meal response returns that meal |
| `Catalog.MealViewModel.constructor` | app/src/main/java/com/example/retrofit/MealData.kt:74-83 | both lists start empty and exactly one all-meals load with query "" is launched |
| `Catalog.MealViewModel.LoadAllMeals` | app/src/main/java/com/example/retrofit/MealData.kt:86-91 | launching an all-meals load adds it to the pending loads and changes neither list |
| `Catalog.MealViewModel.SearchMeals` | app/src/main/java/com/example/retrofit/MealData.kt:94-99 | launching a search adds it to the pending loads and changes neither list |
| `Catalog.MealViewModel.ClearSearchMeals` | app/src/main/java/com/example/retrofit/MealData.kt:102-104 | the search list becomes empty; the all-meals list and the pending loads are unchanged |
| `Catalog.MealViewModel.Complete` | app/src/main/java/com/example/retrofit/MealData.kt:86-98 | a finishing load overwrites only its own list, with the fetched list or with [] on failure, and leaves the other list unchanged |
| `Catalog.FailureOverwritesHomeList` | app/src/main/java/com/example/retrofit/MealData.kt:86-91 | a successful load of [a, b] followed by a failing one leaves the home list empty |
| `Catalog.SearchAndHomeIndependent` | app/src/main/java/com/example/retrofit/MealData.kt:81-99 | a search and the home load finishing in either order each leave their own list holding their own fetch |
| `KotlinText.Utf16Length` | app/src/main/java/com/example/retrofit/ui/AddressScreen.kt:54 | `length` counts UTF-16 code units: one per character below U+10000, two for any other, so it equals the character count exactly when no character lies above U+FFFF |
| `AddressForm.Filled` | app/src/main/java/com/example/retrofit/ui/AddressScreen.kt:29 | the form is filled exactly when each of name, phone and address holds a non-whitespace character, so none is empty |
| `AddressForm.PhoneAfterEdit` | app/src/main/java/com/example/retrofit/ui/AddressScreen.kt:54 | an input over 10 UTF-16 code units leaves the phone unchanged; a shorter one stores its digits; a valid phone stays valid |
| `AddressForm.SurrogatePairCountsTwice` | app/src/main/java/com/example/retrofit/ui/AddressScreen.kt:54 | nine digits followed by an emoji are 11 code units, so the edit is refused |
| `AddressForm.LongInputRefused` | app/src/main/java/com/example/retrofit/ui/AddressScreen.kt:54 | 11-character inputs holding at most 10 digits are refused |
| `AddressForm.SeparatorsDropped` | app/src/main/java/com/example/retrofit/ui/AddressScreen.kt:54 | an accepted input "98-765" stores "98765" |
| `AddressForm.WhitespaceIsBlank` | app/src/main/java/com/example/retrofit/ui/AddressScreen.kt:29 | a name or address of spaces and tabs, or a phone of ASCII information separators (U+001C to U+001F), makes the form not filled |
| `AddressForm.AddressScreen.constructor` | app/src/main/java/com/example/retrofit/ui/AddressScreen.kt:26-29 | all three fields start empty and the form starts not filled |
| `AddressForm.AddressScreen.IsFilled` | app/src/main/java/com/example/retrofit/ui/AddressScreen.kt:29 | the screen's `filled` is `Filled` of its three current fields, and then none of them is empty |
| `AddressForm.AddressScreen.EditName` | app/src/main/java/com/example/retrofit/ui/AddressScreen.kt:46 | the name stores the input verbatim |
| `AddressForm.AddressScreen.EditPhone` | app/src/main/java/com/example/retrofit/ui/AddressScreen.kt:54 | the phone follows the length check and digit filter and stays digits-only, at most 10 long |
| `AddressForm.AddressScreen.EditAddress` | app/src/main/java/com/example/retrofit/ui/AddressScreen.kt:62 | the address stores the input verbatim |
| `AddressForm.AddressScreen.Continue` | app/src/main/java/com/example/retrofit/ui/AddressScreen.kt:67-69 | `onContinue` is called exactly when the form is filled, with the current values and a non-empty digits-only phone |
| `Payment.PaiseAmount` | app/src/main/java/com/example/retrofit/ui/PaymentScreen.kt:89 | the paise amount is 100 times the rupee amount whenever that fits an Int, and always a 32-bit value |
| `Payment.CheckoutOptions` | app/src/main/java/com/example/retrofit/ui/PaymentScreen.kt:85-93 | the options hold exactly name, description, currency, amount, prefill and theme; the description is "Food Order", the theme colour #FC7303 and the amount a 32-bit Int |
| `Payment.OptionsCarryPayer` | app/src/main/java/com/example/retrofit/ui/PaymentScreen.kt:85-93 | for every amount: the name is the user's, the currency INR, the prefilled contact the user's phone, no address key; the amount is 100 times the rupees whenever that fits an Int |
| `Payment.LaunchRazorpay` | app/src/main/java/com/example/retrofit/ui/PaymentScreen.kt:72-106 | no Activity: nothing opened, no callback; otherwise the options are opened and the callbacks are onSuccess then onComplete when nothing throws, and onError then onComplete when something does |
| `Payment.PaymentScreen.constructor` | app/src/main/java/com/example/retrofit/ui/PaymentScreen.kt:31 | the screen starts not paying, so the Pay button is offered |
| `Payment.PaymentScreen.PayOffered` | app/src/main/java/com/example/retrofit/ui/PaymentScreen.kt:38 | the Pay button is offered exactly while no payment is in progress |
| `Payment.PaymentScreen.StartPaying` | app/src/main/java/com/example/retrofit/ui/PaymentScreen.kt:38-50 | Pay can be pressed only while offered; pressing it sets `isPaying`, after which no Pay button is offered, so there is no second launch |
| `Payment.PaymentScreen.Completed` | app/src/main/java/com/example/retrofit/ui/PaymentScreen.kt:58-60 | the `onComplete` callback clears `isPaying` and the Pay button is offered again |
| `Home.Thumbnails` | app/src/main/java/com/example/retrofit/ui/HomeScreen.kt:89 | mapping to thumbnails keeps the length and the order |
| `Home.BannerImages` | app/src/main/java/com/example/retrofit/ui/HomeScreen.kt:89 | the banner holds the thumbnails of the first min(4, n) meals, in order |
| `Home.DisplayIndex` | app/src/main/java/com/example/retrofit/ui/HomeScreen.kt:102-110 | the image shown has a valid index: `current` itself when in range, the last index when beyond it |
| `Home.Dots` | app/src/main/java/com/example/retrofit/ui/HomeScreen.kt:123-130 | there is one indicator dot per banner image |
| `Home.DotsHighlightCurrent` | app/src/main/java/com/example/retrofit/ui/HomeScreen.kt:123-130 | dot ix is highlighted exactly when ix equals `current`; one dot is lit when `current` is in range, none otherwise |
| `Home.ShownMatchesDots` | app/src/main/java/com/example/retrofit/ui/HomeScreen.kt:102-130 | for an in-range index the image shown is `current` and its dot is the only one lit |
| `Home.BannerCarousel.constructor` | app/src/main/java/com/example/retrofit/ui/HomeScreen.kt:90 | the index starts at 0 |
| `Home.BannerCarousel.ImageCountChanged` | app/src/main/java/com/example/retrofit/ui/HomeScreen.kt:92-93 | an index at or beyond the new image count goes back to 0, otherwise it is kept |
| `Home.BannerCarousel.Tick` | app/src/main/java/com/example/retrofit/ui/HomeScreen.kt:97 | a tick moves to the next index modulo the count, which stays in range |
| `Home.BannerCarousel.RunEffect` | app/src/main/java/com/example/retrofit/ui/HomeScreen.kt:92-98 | after the reset and k ticks the index is (start + k) mod count, valid whenever there are images, and 0 with fewer than two images |
| `Home.SearchBar.constructor` | app/src/main/java/com/example/retrofit/ui/HomeScreen.kt:232 | the query starts empty |
| `Home.SearchBar.Edit` | app/src/main/java/com/example/retrofit/ui/HomeScreen.kt:242 | the query stores the typed text |
| `Home.SearchBar.ActionsOffered` | app/src/main/java/com/example/retrofit/ui/HomeScreen.kt:248 | Go and Clear are on screen exactly when the query is not empty, whitespace included |
| `Home.SearchBar.Clear` | app/src/main/java/com/example/retrofit/ui/HomeScreen.kt:248-257 | Clear is offered only for a non-empty query and empties it |
| `Home.SearchBar.Go` | app/src/main/java/com/example/retrofit/ui/HomeScreen.kt:248-253 | Go is offered only for a non-empty query and submits it |
| `Home.SearchBar.KeyboardSearch` | app/src/main/java/com/example/retrofit/ui/HomeScreen.kt:271-273 | the keyboard action submits the current query, even an empty one |
| `Navigation.LastIndexOf` | app/src/main/java/com/example/retrofit/MainActivity.kt:123 | the result is the topmost entry for the route, or -1 when the route is not on the stack |
| `Navigation.Pop` | app/src/main/java/com/example/retrofit/MainActivity.kt:97 | popping removes exactly the top entry: the old stack is the result plus that entry |
| `Navigation.NavigateHome` | app/src/main/java/com/example/retrofit/MainActivity.kt:87-90 | `home` is on top afterwards; below it the stack is kept up to the topmost old `home`, which is replaced, and every entry above that is gone; with no `home` on the stack, `home` is pushed |
| `Navigation.PopBackTo` | app/src/main/java/com/example/retrofit/MainActivity.kt:123 | the result is a prefix of the stack ending at the topmost entry for the route, with none of that route above; with the route absent nothing changes |
| `Navigation.NavigateHomeCollapses` | app/src/main/java/com/example/retrofit/MainActivity.kt:87-90 | on any stack the app can build, navigating home with popUpTo home inclusive leaves exactly [home] |
| `Navigation.PopBackToAddressFromPayment` | app/src/main/java/com/example/retrofit/MainActivity.kt:123 | with payment on top, popping back to address removes only the payment entry and leaves address on top |
| `Navigation.AppNavigator.constructor` | app/src/main/java/com/example/retrofit/MainActivity.kt:65-70 | the stack starts as [home], with no selected meal and empty user details |
| `Navigation.AppNavigator.ShowHome` | app/src/main/java/com/example/retrofit/MainActivity.kt:71-72 | showing home launches one all-meals load with query "" |
| `Navigation.AppNavigator.SelectMeal` | app/src/main/java/com/example/retrofit/MainActivity.kt:75-78 | a tapped meal on home (or on the search results, lines 129-131) becomes the selected meal and detail is pushed |
| `Navigation.AppNavigator.Search` | app/src/main/java/com/example/retrofit/MainActivity.kt:79-84 | a blank query changes nothing; any other launches a search; it pushes search(q) when the query does not start with '/' and has no '/' after its first character before a later '?' or '#', and otherwise `navigate` throws and the stack is unchanged |
| `Navigation.PathPart` | app/src/main/java/com/example/retrofit/MainActivity.kt:82 | the path part of the query is its longest prefix without '?' or '#': the character after it, if any, is one of them |
| `Navigation.RoutableQueryExamples` | app/src/main/java/com/example/retrofit/MainActivity.kt:82 | "curry" and "pasta?/x" reach the results screen; "a/b" and "?/x" (a leading '?' belongs to the argument) make `navigate` throw |
| `Navigation.AppNavigator.LogoClick` | app/src/main/java/com/example/retrofit/MainActivity.kt:85-91 | the logo launches an all-meals load and collapses the stack to [home] |
| `Navigation.AppNavigator.DetailBack` | app/src/main/java/com/example/retrofit/MainActivity.kt:97 | back from detail pops exactly one entry and keeps the selected meal |
| `Navigation.AppNavigator.AddToCart` | app/src/main/java/com/example/retrofit/MainActivity.kt:98-100 | Add to Cart pushes address; on detail a meal is always selected |
| `Navigation.AppNavigator.SubmitAddress` | app/src/main/java/com/example/retrofit/MainActivity.kt:104-109 | the submitted name, phone and address become the session's and payment is pushed |
| `Navigation.AppNavigator.PaymentAmount` | app/src/main/java/com/example/retrofit/MainActivity.kt:113 | the amount is the selected meal's rupee price, or 0 with no meal |
| `Navigation.AppNavigator.PaymentChargesSelectedMeal` | app/src/main/java/com/example/retrofit/MainActivity.kt:113 | on payment a meal is always selected, so the amount is its rupee price, a multiple of 85 within [-850, 1700] and within [425, 1700] for ids of up to nine characters |
| `Navigation.AppNavigator.PaymentSuccess` | app/src/main/java/com/example/retrofit/MainActivity.kt:117-121 | success collapses the stack to [home] and keeps the selected meal and the user details |
| `Navigation.AppNavigator.PaymentError` | app/src/main/java/com/example/retrofit/MainActivity.kt:122-124 | an error pops only the payment entry, leaves address on top and keeps every session field |
| `Navigation.AppNavigator.SearchBack` | app/src/main/java/com/example/retrofit/MainActivity.kt:132-139 | back from the search results launches an all-meals load, empties the search list and collapses the stack to [home] |
| `Navigation.AppNavigator.Pay` | app/src/main/java/com/example/retrofit/MainActivity.kt:111-125 | paying sets `isPaying` and opens checkout for the session's amount, name and phone. An open that does not throw goes to [home] and one that throws goes back to address, then `isPaying` is cleared. Without an Activity nothing moves and Pay is never offered again |
| `Navigation.CheckoutWithRetry` | app/src/main/java/com/example/retrofit/MainActivity.kt:94-125 | choosing meal "52772", one failed and one successful payment charge 765 twice, pass through [home, detail, address] and end on [home] with the meal still selected |

## Left out

- Compose rendering and layout, images (Coil), toasts and the Razorpay key id are not modelled. DetailScreen.kt enters only as the fact that Add to Cart needs a selected meal.
- The HTTP client, JSON decoding and the Retrofit service are left out. A fetch is only its outcome, the decoded list or a failure. How a `"meals": null` body decodes is library behaviour and is not modelled.
- `Meal.priceUsd` is a constructor parameter with a default. A catalog payload that carried its own `priceUsd` would override the derived price. The model always derives it, as the catalog sends no price.
- Coroutines and dispatchers are left out. Loads finish as separate events in any order, and no request sequencing is added. The last completion of a list wins, as in the app.
- `Price.PriceUsd` and `KotlinText.Digits` use ASCII digits only; Kotlin's `isDigit` also accepts other Unicode digits.
- `KotlinText.IsBlank`: `IsWhitespace` holds for exactly the characters below U+0080 that Kotlin's `isWhitespace` accepts (space, U+0009 to U+000D, U+001C to U+001F); non-ASCII whitespace such as U+00A0 or U+2003 is not modelled and counts as non-blank.
- Session variables: the captured `var`s of the activity are not `remember`ed and could be reset by a recomposition. The model keeps them as persistent fields.
- Showing `home` launches a load on every composition of that screen. `Navigation.AppNavigator.ShowHome` models one such composition as an event.
- `Navigation.AppNavigator.Search`: a query that starts with '/', or has a '/' after its first character and before any later '?' or '#', is modelled as `navigate` throwing (the app then crashes; the model stops at the outcome). Other URI handling of the route string `search/$query` is not modelled: a '?' or '#' in the query cuts short the `q` the results screen receives, and percent escapes are decoded; the model keeps the query verbatim.
- System back-button handling by the navigation library is not modelled; only the app's own callbacks are. `launchSingleTop` is not modelled separately: after popping up to home inclusive, the top entry is never home, so it changes nothing.
- `Home.BannerCarousel.RunEffect`: the effect's `while (true)` loop with its 2.5-second delay is modelled as a given number of ticks, and cancelling the effect when the image count changes as a fresh `RunEffect` call.
- Category chips are not modelled: their callback is never wired by the caller.
- `Payment.LaunchRazorpay`: what may throw inside the `try` block (`checkout.open`, the toast) is one input, "throws before `onSuccess`"; the provider's own result callbacks do not exist in the app and are not modelled.
