/** The shop page (ag-gearstore/src/app/shop/page.tsx): the team filter and
    its choices, loading the product list, and the product-count label. */
module Shop {
  import opened Base
  import Api

  // ---------------------------------------------------------------------------
  // Team choices: `Array.from(new Set(products.map(p => p.team).filter(Boolean)))`

  /** The distinct non-empty teams in order of first occurrence: a set built
      by inserting the teams one after the other. */
  function Teams(teams: seq<string>): seq<string> {
    if teams == [] then []
    else
      var seen := Teams(teams[..|teams| - 1]);
      var t := teams[|teams| - 1];
      if t == "" || t in seen then seen else seen + [t]
  }

  function TeamsOf(products: seq<Api.Product>): seq<string> {
    Teams(seq(|products|, i requires 0 <= i < |products| => products[i].team))
  }

  /** The choices are exactly the non-empty teams, with no empty entry and no
      duplicate. */
  lemma {:induction false} TeamsMembers(teams: seq<string>)
    ensures forall t :: t in Teams(teams) <==> t in teams && t != ""
    ensures forall i, j :: 0 <= i < j < |Teams(teams)| ==> Teams(teams)[i] != Teams(teams)[j]
  {
    if teams != [] {
      var init := teams[..|teams| - 1];
      TeamsMembers(init);
      assert teams == init + [teams[|teams| - 1]];
    }
  }

  /** The position of the first occurrence of `t`. */
  function FirstIndex(teams: seq<string>, t: string): (i: nat)
    requires t in teams
    ensures i < |teams| && teams[i] == t
  {
    if teams[0] == t then 0 else 1 + FirstIndex(teams[1..], t)
  }

  lemma {:induction false} FirstIndexInPrefix(teams: seq<string>, x: string, t: string)
    requires t in teams
    ensures FirstIndex(teams + [x], t) == FirstIndex(teams, t)
  {
    if teams[0] != t {
      assert (teams + [x])[1..] == teams[1..] + [x];
      FirstIndexInPrefix(teams[1..], x, t);
    }
  }

  lemma {:induction false} FirstIndexOfNew(teams: seq<string>, t: string)
    requires t !in teams
    ensures FirstIndex(teams + [t], t) == |teams|
  {
    if teams != [] {
      assert (teams + [t])[1..] == teams[1..] + [t];
      FirstIndexOfNew(teams[1..], t);
    }
  }

  /** Choices come in the order of their first occurrence among the
      products. */
  lemma {:induction false} TeamsInFirstOccurrenceOrder(teams: seq<string>)
    ensures forall i, j :: 0 <= i < j < |Teams(teams)| ==>
      Teams(teams)[i] in teams && Teams(teams)[j] in teams &&
      FirstIndex(teams, Teams(teams)[i]) < FirstIndex(teams, Teams(teams)[j])
  {
    TeamsMembers(teams);
    if teams != [] {
      var init := teams[..|teams| - 1];
      var t := teams[|teams| - 1];
      assert teams == init + [t];
      TeamsInFirstOccurrenceOrder(init);
      TeamsMembers(init);
      var seen := Teams(init);
      var r := Teams(teams);
      forall i, j | 0 <= i < j < |r|
        ensures r[i] in teams && r[j] in teams && FirstIndex(teams, r[i]) < FirstIndex(teams, r[j])
      {
        assert r[i] == seen[i];
        FirstIndexInPrefix(init, t, r[i]);
        if j < |seen| {
          assert r[j] == seen[j];
          FirstIndexInPrefix(init, t, r[j]);
        } else {
          assert r[j] == t && t !in init;
          FirstIndexOfNew(init, t);
        }
      }
    }
  }

  // ---------------------------------------------------------------------------
  // The team filter

  /** `handleTeamFilterChange`: the "all" choice clears the filter. */
  function FilterFromChoice(value: string): (f: string)
    ensures value == "all" ==> f == ""
    ensures value != "all" ==> f == value
  {
    if value == "all" then "" else value
  }

  /** The select shows "all" for an empty filter. */
  function ChoiceFromFilter(filter: string): (c: string)
    ensures filter == "" ==> c == "all"
    ensures filter != "" ==> c == filter
  {
    if filter == "" then "all" else filter
  }

  /** Choosing a value and reading the select back gives the value again,
      except that choosing "" shows "all"; and every filter other than "all"
      itself survives the way back. */
  lemma FilterChoiceRoundTrip(value: string, filter: string)
    ensures value != "" ==> ChoiceFromFilter(FilterFromChoice(value)) == value
    ensures filter != "all" ==> FilterFromChoice(ChoiceFromFilter(filter)) == filter
  {
  }

  /** The query `loadProducts` sends: team and search only when non-empty. */
  function ShopQuery(teamFilter: string, search: string): Api.ProductQuery {
    Api.ProductQuery(if teamFilter != "" then Some(teamFilter) else None,
                     if search != "" then Some(search) else None, None, None)
  }

  /** The parameters that reach the URL: team, then search, each only when
      non-empty, and never a price bound. */
  lemma ShopQueryParams(teamFilter: string, search: string)
    ensures Api.Selected(ShopQuery(teamFilter, search), 0) ==
      (if teamFilter != "" then [Api.QueryParam(Api.Team, teamFilter)] else []) +
      (if search != "" then [Api.QueryParam(Api.Search, search)] else [])
  {
    var q := ShopQuery(teamFilter, search);
    assert Api.Selected(q, 2) == [];
  }

  // ---------------------------------------------------------------------------
  // Loading

  /** How `getAll` settled: the list, an `Error` with its message, or some
      other thrown value. */
  datatype LoadOutcome = Loaded(products: seq<Api.Product>) | ThrewError(message: string) | ThrewOther

  /** `${n} product${n !== 1 ? 's' : ''}`. */
  function CountLabel(n: nat): string {
    NatToString(n) + " product" + (if n != 1 then "s" else "")
  }

  lemma CountLabelPlural(n: nat)
    ensures var l := CountLabel(n);
      (l[|l| - 1] == 's' <==> n != 1) && l[..|NatToString(n)|] == NatToString(n)
  {
  }

  class ShopPage {
    var products: seq<Api.Product>
    var loading: bool
    var error: string
    var search: string
    var teamFilter: string

    constructor ()
      ensures products == [] && loading && error == "" && search == "" && teamFilter == ""
    {
      products := [];
      loading := true;
      error := "";
      search := "";
      teamFilter := "";
    }

    /** `loadProducts`: sends the current filter and search; on success the
        list is replaced and no error is shown; on failure the list stays,
        the error is the thrown `Error`'s message or "Failed to load
        products"; `loading` is false at the end. */
    method LoadProducts(outcome: LoadOutcome) returns (query: Api.ProductQuery)
      modifies this
      ensures query == ShopQuery(teamFilter, search)
      ensures !loading && search == old(search) && teamFilter == old(teamFilter)
      ensures outcome.Loaded? ==> products == outcome.products && error == ""
      ensures outcome.ThrewError? ==> products == old(products) && error == outcome.message
      ensures outcome.ThrewOther? ==> products == old(products) && error == "Failed to load products"
    {
      loading := true;
      error := "";
      query := ShopQuery(teamFilter, search);
      match outcome {
        case Loaded(ps) => products := ps;
        case ThrewError(m) => error := m;
        case ThrewOther => error := "Failed to load products";
      }
      loading := false;
    }

    method HandleSearchChange(value: string)
      modifies this
      ensures search == value && teamFilter == old(teamFilter) && products == old(products)
      ensures loading == old(loading) && error == old(error)
    {
      search := value;
    }

    method HandleTeamFilterChange(value: string)
      modifies this
      ensures teamFilter == FilterFromChoice(value) && search == old(search) && products == old(products)
      ensures loading == old(loading) && error == old(error)
      ensures ChoiceFromFilter(teamFilter) == (if value == "" then "all" else value)
    {
      teamFilter := FilterFromChoice(value);
    }
  }
}
