/** The page shell (mini-marketplace/src/App.jsx): which view is shown, the
    signed-in user and role, the product list and its search, and how each
    handler moves between them. Every awaited API call is a parameter: each
    handler is handed how the call ended. */
module App {
  import opened Wrappers
  import opened Text
  import opened Lists
  import opened Listings

  datatype View = ProductsView | AuthView | DashboardView

  /** The dashboard the page shows. */
  datatype Dashboard = NoDashboard | BuyerDashboard | SellerDashboard

  /** How `getProducts` ended: a reply with its `success` flag and data, or
      a thrown error. */
  datatype LoadOutcome = Loaded(success: bool, data: seq<Listing>) | LoadFailed

  /** How a login or signup call ended: a reply with its `success` flag and
      user, or a thrown error with a message that may be missing or empty. */
  datatype AuthOutcome = Answered(success: bool, user: ClientUser) | AuthThrew(message: Option<string>)

  /** How a product call ended: a reply with its `success` flag, or a thrown
      error. */
  datatype CallOutcome = Done(success: bool) | CallThrew(message: Option<string>)

  /** `message || fallback`. */
  function MessageOr(m: Option<string>, fallback: string): (r: string)
    ensures m.Some? && m.value != "" ==> r == m.value
    ensures !(m.Some? && m.value != "") ==> r == fallback
  {
    if m.Some? && m.value != "" then m.value else fallback
  }

  /** The error of a login whose account has another role than the one
      chosen: it names both roles. */
  function RoleMismatch(actual: string, chosen: string): (m: string)
    ensures Contains(m, actual) && Contains(m, chosen)
  {
    var lead, middle := "This account is registered as a ", ", not a ";
    var m := lead + actual + middle + chosen;
    assert OccursAt(m, actual, |lead|) by { assert m[|lead|..|lead| + |actual|] == actual; }
    assert OccursAt(m, chosen, |m| - |chosen|) by { assert m[|m| - |chosen|..] == chosen; }
    ContainsAt(m, actual, |lead|);
    ContainsAt(m, chosen, |m| - |chosen|);
    m
  }

  /** `p.x?.toLowerCase().includes(q)`: false when the field is missing. */
  predicate FieldMatches(x: Option<string>, query: string) {
    x.Some? && Contains(Lower(x.value), Lower(query))
  }

  /** The header search's test: the name, description or category contains
      the query, ignoring case. */
  predicate SearchMatches(p: Listing, query: string)
    ensures SearchMatches(p, query) ==> p.name.Some? || p.description.Some? || p.category.Some?
  {
    FieldMatches(p.name, query) || FieldMatches(p.description, query) || FieldMatches(p.category, query)
  }

  /** `filteredProducts`: the order-preserving sub-list of the products the
      search accepts. */
  function FilteredProducts(products: seq<Listing>, query: string): (r: seq<Listing>)
    ensures |r| <= |products|
    ensures forall k :: 0 <= k < |r| ==> SearchMatches(r[k], query)
  {
    Filter(products, p => SearchMatches(p, query))
  }

  /** Every product the search accepts is listed, in the original order, and
      only those. */
  lemma FilteredSelects(products: seq<Listing>, query: string) returns (idx: seq<int>)
    ensures SelectedBy(FilteredProducts(products, query), products, idx)
    ensures forall i :: 0 <= i < |products| ==> (SearchMatches(products[i], query) <==> i in idx)
  {
    idx := FilterSelects(products, p => SearchMatches(p, query));
  }

  /** The empty query keeps every product with at least one of the three
      fields, and drops the ones with none. */
  lemma EmptyQuery(p: Listing)
    ensures SearchMatches(p, "") <==> p.name.Some? || p.description.Some? || p.category.Some?
  {
    if p.name.Some? { ContainsEmpty(Lower(p.name.value)); }
    if p.description.Some? { ContainsEmpty(Lower(p.description.value)); }
    if p.category.Some? { ContainsEmpty(Lower(p.category.value)); }
  }

  /** The search ignores the case of the query. */
  lemma SearchIgnoresQueryCase(products: seq<Listing>, query: string)
    ensures FilteredProducts(products, query) == FilteredProducts(products, Lower(query))
  {
    LowerIdempotent(query);
    FilterSameOn(products, p => SearchMatches(p, query), p => SearchMatches(p, Lower(query)));
  }

  /** The dashboard shown: the buyer's or the seller's by the signed-in role,
      and only in the dashboard view. */
  function ShownDashboard(view: View, userRole: Option<string>): (d: Dashboard)
    ensures d == BuyerDashboard <==> view == DashboardView && userRole == Some("buyer")
    ensures d == SellerDashboard <==> view == DashboardView && userRole == Some("seller")
  {
    if view == DashboardView && userRole == Some("buyer") then BuyerDashboard
    else if view == DashboardView && userRole == Some("seller") then SellerDashboard
    else NoDashboard
  }

  /** The page's state. */
  class AppState {
    var view: View
    var session: Option<ClientUser>
    var userRole: Option<string>
    var selectedRole: Option<string>
    var products: seq<Listing>
    var error: Option<string>
    var searchQuery: string

    constructor ()
      ensures view == ProductsView && session.None? && userRole.None? && selectedRole.None?
      ensures products == [] && error.None? && searchQuery == ""
    {
      view := ProductsView;
      session := None;
      userRole := None;
      selectedRole := None;
      products := [];
      error := None;
      searchQuery := "";
    }

    /** `loadProducts`: a successful reply replaces the list, a failed one
        changes nothing, and a thrown error sets the load error. */
    method LoadProducts(outcome: LoadOutcome)
      modifies this
      ensures view == old(view) && session == old(session) && userRole == old(userRole)
      ensures selectedRole == old(selectedRole) && searchQuery == old(searchQuery)
      ensures outcome.Loaded? && outcome.success ==> products == outcome.data && error == old(error)
      ensures outcome.Loaded? && !outcome.success ==> products == old(products) && error == old(error)
      ensures outcome.LoadFailed? ==> products == old(products) && error == Some("Failed to load products")
    {
      match outcome
      case Loaded(success, data) =>
        if success {
          products := data;
        }
      case LoadFailed =>
        error := Some("Failed to load products");
    }

    /** `handleShowAuth`: the sign-in view, with no role chosen yet. */
    method HandleShowAuth()
      modifies this
      ensures view == AuthView && selectedRole.None?
      ensures session == old(session) && userRole == old(userRole) && products == old(products)
      ensures error == old(error) && searchQuery == old(searchQuery)
    {
      view := AuthView;
      selectedRole := None;
    }

    /** `handleBackToProducts`: the product list, with the chosen role
        cleared. */
    method HandleBackToProducts()
      modifies this
      ensures view == ProductsView && selectedRole.None?
      ensures session == old(session) && userRole == old(userRole) && products == old(products)
      ensures error == old(error) && searchQuery == old(searchQuery)
    {
      view := ProductsView;
      selectedRole := None;
    }

    /** `handleRoleSelected`. */
    method HandleRoleSelected(role: string)
      modifies this
      ensures selectedRole == Some(role)
      ensures view == old(view) && session == old(session) && userRole == old(userRole)
      ensures products == old(products) && error == old(error) && searchQuery == old(searchQuery)
    {
      selectedRole := Some(role);
    }

    /** `handleLogin` with the role the user chose. A successful reply for
        an account of that role signs the user in, opens the dashboard and
        reloads the products; one for another role only sets the mismatch
        error; a thrown error sets its message or `Login failed`. */
    method HandleLogin(chosenRole: string, outcome: AuthOutcome, load: LoadOutcome)
      modifies this
      ensures selectedRole == old(selectedRole) && searchQuery == old(searchQuery)
      ensures outcome.Answered? && outcome.success && outcome.user.role == chosenRole ==>
        session == Some(outcome.user) && userRole == Some(outcome.user.role) && view == DashboardView
        && products == (if load.Loaded? && load.success then load.data else old(products))
        && error == (if load.LoadFailed? then Some("Failed to load products") else None)
      ensures outcome.Answered? && outcome.success && outcome.user.role != chosenRole ==>
        session == old(session) && userRole == old(userRole) && view == old(view) && products == old(products)
        && error == Some(RoleMismatch(outcome.user.role, chosenRole))
      ensures outcome.Answered? && !outcome.success ==>
        session == old(session) && userRole == old(userRole) && view == old(view)
        && products == old(products) && error.None?
      ensures outcome.AuthThrew? ==>
        session == old(session) && userRole == old(userRole) && view == old(view) && products == old(products)
        && error == Some(MessageOr(outcome.message, "Login failed"))
    {
      error := None;
      match outcome
      case AuthThrew(m) =>
        error := Some(MessageOr(m, "Login failed"));
      case Answered(success, user) =>
        if success {
          if user.role != chosenRole {
            error := Some(RoleMismatch(user.role, chosenRole));
            return;
          }
          session := Some(user);
          userRole := Some(user.role);
          view := DashboardView;
          LoadProducts(load);
        }
    }

    /** `handleSignup`: a successful reply signs the user in with the
        account's role, opens the dashboard and reloads the products; a
        thrown error sets its message or `Signup failed`. */
    method HandleSignup(outcome: AuthOutcome, load: LoadOutcome)
      modifies this
      ensures selectedRole == old(selectedRole) && searchQuery == old(searchQuery)
      ensures outcome.Answered? && outcome.success ==>
        session == Some(outcome.user) && userRole == Some(outcome.user.role) && view == DashboardView
        && products == (if load.Loaded? && load.success then load.data else old(products))
        && error == (if load.LoadFailed? then Some("Failed to load products") else None)
      ensures outcome.Answered? && !outcome.success ==>
        session == old(session) && userRole == old(userRole) && view == old(view)
        && products == old(products) && error.None?
      ensures outcome.AuthThrew? ==>
        session == old(session) && userRole == old(userRole) && view == old(view) && products == old(products)
        && error == Some(MessageOr(outcome.message, "Signup failed"))
    {
      error := None;
      match outcome
      case AuthThrew(m) =>
        error := Some(MessageOr(m, "Signup failed"));
      case Answered(success, user) =>
        if success {
          session := Some(user);
          userRole := Some(user.role);
          view := DashboardView;
          LoadProducts(load);
        }
    }

    /** `handleLogout`: signed out and back on the product list. The logout
        call's outcome is not read: a thrown error is only logged, so the
        handler takes no parameter for it. */
    method HandleLogout()
      modifies this
      ensures session.None? && userRole.None? && selectedRole.None? && view == ProductsView
      ensures products == old(products) && error == old(error) && searchQuery == old(searchQuery)
    {
      session := None;
      userRole := None;
      selectedRole := None;
      view := ProductsView;
    }

    /** `handleAddProduct`, `handleUpdateProduct` and `handleDeleteProduct`,
        with `fallback` their own failure message: a successful reply
        reloads the products; a thrown error sets its message or `fallback`
        and is thrown on to the dashboard (`rethrown`). */
    method HandleProductCall(outcome: CallOutcome, fallback: string, load: LoadOutcome) returns (rethrown: bool)
      modifies this
      ensures view == old(view) && session == old(session) && userRole == old(userRole)
      ensures selectedRole == old(selectedRole) && searchQuery == old(searchQuery)
      ensures rethrown <==> outcome.CallThrew?
      ensures outcome == Done(true) ==>
        products == (if load.Loaded? && load.success then load.data else old(products))
        && error == (if load.LoadFailed? then Some("Failed to load products") else None)
      ensures outcome == Done(false) ==> products == old(products) && error.None?
      ensures outcome.CallThrew? ==> products == old(products) && error == Some(MessageOr(outcome.message, fallback))
    {
      error := None;
      match outcome
      case CallThrew(m) =>
        error := Some(MessageOr(m, fallback));
        return true;
      case Done(success) =>
        if success {
          LoadProducts(load);
        }
        return false;
    }
  }
}
