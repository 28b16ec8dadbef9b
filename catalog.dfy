/**
 * The catalog layer: the `Meal` record, the repository's two calls and the
 * `MealViewModel` that keeps two independent lists, all meals (home screen)
 * and search results (search screen).
 *
 * The remote call `getMeals(query)` is not modelled; its outcome is an input,
 * either the decoded list or a failure (any exception). Each `launch` of the
 * view model only records the request in `pending`; the coroutine finishing is
 * a separate event `Complete`, which may happen for any pending request in any
 * order, exactly as overlapping coroutines may finish.
 */
module Catalog {
  import opened Wrappers
  import Price

  /** One catalog entry; its prices are derived from the id. */
  datatype Meal = Meal(id: string, name: string, thumbnail: string) {
    function PriceUsd(): int { Price.PriceUsd(id) }
    function PriceInr(): int { Price.PriceInr(id) }
  }

  /** What one call to the remote catalog produced. */
  datatype FetchOutcome = Fetched(meals: seq<Meal>) | FetchFailed

  /**
   * `runCatching { repository.getMeals(query) }.getOrDefault(emptyList())`:
   * the fetched list, or the empty list on any failure.
   */
  function ListOrEmpty(outcome: FetchOutcome): (r: seq<Meal>)
    ensures outcome.Fetched? ==> r == outcome.meals
    ensures outcome.FetchFailed? ==> r == []
  {
    match outcome
    case Fetched(meals) => meals
    case FetchFailed => []
  }

  /** Result of `MealRepository.getMeal`: it returns a nullable meal or lets the failure escape. */
  datatype Lookup = LookupThrew | Returned(meal: Option<Meal>)

  /** `getMeal(id)`: the first meal of the lookup response, null when the list is empty. */
  function GetMeal(response: FetchOutcome): (r: Lookup)
    ensures r.LookupThrew? <==> response.FetchFailed?
    ensures response.Fetched? ==> (r.Returned? && (r.meal.None? <==> response.meals == []))
    ensures r.Returned? && r.meal.Some? ==> r.meal.value == response.meals[0]
  {
    match response
    case FetchFailed => LookupThrew
    case Fetched(meals) => Returned(if meals == [] then None else Some(meals[0]))
  }

  /** A lookup that returns a meal returns one that the response holds, and the only one of a one-meal response. */
  lemma GetMealFromResponse(response: FetchOutcome)
    requires response.Fetched?
    ensures GetMeal(response).meal.Some? ==> GetMeal(response).meal.value in response.meals
    ensures |response.meals| == 1 ==> GetMeal(response) == Returned(Some(response.meals[0]))
  {
  }

  /** Which of the two state flows a launched load writes. */
  datatype Cell = AllMealsCell | SearchMealsCell

  /** A launched coroutine: the cell it will write and the query it fetches. */
  datatype Load = Load(cell: Cell, query: string)

  class MealViewModel {
    /** `_allMeals.value` */
    var allMeals: seq<Meal>
    /** `_searchMeals.value` */
    var searchMeals: seq<Meal>
    /** Loads launched and not yet finished. */
    var pending: multiset<Load>

    /** Both flows start empty and `init` launches one all-meals load with the default query "". */
    constructor()
      ensures allMeals == [] && searchMeals == []
      ensures pending == multiset{Load(AllMealsCell, "")}
    {
      allMeals := [];
      searchMeals := [];
      pending := multiset{};
      new;
      LoadAllMeals("");
    }

    /** `loadAllMeals(query)`: launches a fetch whose completion will write `allMeals`. */
    method LoadAllMeals(query: string)
      modifies this`pending
      ensures pending == old(pending) + multiset{Load(AllMealsCell, query)}
      ensures allMeals == old(allMeals) && searchMeals == old(searchMeals)
    {
      pending := pending + multiset{Load(AllMealsCell, query)};
    }

    /** `searchMeals(query)`: launches a fetch whose completion will write `searchMeals`. */
    method SearchMeals(query: string)
      modifies this`pending
      ensures pending == old(pending) + multiset{Load(SearchMealsCell, query)}
      ensures allMeals == old(allMeals) && searchMeals == old(searchMeals)
    {
      pending := pending + multiset{Load(SearchMealsCell, query)};
    }

    /** `clearSearchMeals()`: empties the search results at once and touches nothing else. */
    method ClearSearchMeals()
      modifies this`searchMeals
      ensures searchMeals == [] && allMeals == old(allMeals) && pending == old(pending)
    {
      searchMeals := [];
    }

    /**
     * A launched load finishing with `outcome`: it overwrites its own cell with
     * the fetched list, or with [] on failure, whatever the cell held before,
     * and leaves the other cell alone.
     */
    method Complete(load: Load, outcome: FetchOutcome)
      requires load in pending
      modifies this
      ensures pending == old(pending) - multiset{load}
      ensures load.cell == AllMealsCell ==> allMeals == ListOrEmpty(outcome) && searchMeals == old(searchMeals)
      ensures load.cell == SearchMealsCell ==> searchMeals == ListOrEmpty(outcome) && allMeals == old(allMeals)
    {
      var meals := ListOrEmpty(outcome);
      match load.cell {
        case AllMealsCell => allMeals := meals;
        case SearchMealsCell => searchMeals := meals;
      }
      pending := pending - multiset{load};
    }
  }

  /**
   * A successful load of [a, b] followed by a failing one leaves the home list
   * empty: failure overwrites, it does not keep the previous list.
   */
  method FailureOverwritesHomeList(a: Meal, b: Meal) returns (home: seq<Meal>, results: seq<Meal>)
    ensures home == [] && results == []
  {
    var vm := new MealViewModel();
    vm.LoadAllMeals("");
    vm.Complete(Load(AllMealsCell, ""), Fetched([a, b]));
    assert vm.allMeals == [a, b];
    vm.Complete(Load(AllMealsCell, ""), FetchFailed);
    home, results := vm.allMeals, vm.searchMeals;
  }

  /**
   * A search for "pasta" and a home load running side by side: whichever
   * finishes first, each list ends up holding its own fetch.
   */
  method SearchAndHomeIndependent(found: seq<Meal>, all: seq<Meal>, searchFirst: bool)
    returns (home: seq<Meal>, results: seq<Meal>)
    ensures home == all && results == found
  {
    var vm := new MealViewModel();
    vm.SearchMeals("pasta");
    if searchFirst {
      vm.Complete(Load(SearchMealsCell, "pasta"), Fetched(found));
      vm.Complete(Load(AllMealsCell, ""), Fetched(all));
    } else {
      vm.Complete(Load(AllMealsCell, ""), Fetched(all));
      vm.Complete(Load(SearchMealsCell, "pasta"), Fetched(found));
    }
    home, results := vm.allMeals, vm.searchMeals;
  }
}
