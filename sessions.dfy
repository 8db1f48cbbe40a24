/** The per-browser session (`req.session`) that the cart and the NETS checkout read and write. */
module Sessions {
  import opened Wrappers
  import opened CartItem

  /** The logged-in user as the session stores it: a row of the users table. */
  datatype User = User(id: int, email: Option<string>, role: string)

  /** The value of every session field the core uses; `None` is an unset field. */
  datatype SessionState = SessionState(
    cart: Option<seq<Line>>,
    user: Option<User>,
    pendingNetsOrderId: Option<int>,
    netsOrderFinalized: bool,
    lastNetsOrderId: Option<int>)

  /** The cart invariant, for a cart that may not have been created yet. */
  predicate CartValid(cart: Option<seq<Line>>) {
    cart.Some? ==> UniqueIds(cart.value)
  }

  class Session {
    var cart: Option<seq<Line>>
    var user: Option<User>
    var pendingNetsOrderId: Option<int>
    var netsOrderFinalized: bool  // an unset flag reads as false
    var lastNetsOrderId: Option<int>

    /** A fresh session: no cart, nobody logged in, no NETS attempt. */
    constructor ()
      ensures State() == SessionState(None, None, None, false, None)
    {
      cart, user := None, None;
      pendingNetsOrderId, netsOrderFinalized, lastNetsOrderId := None, false, None;
    }

    function State(): SessionState
      reads this
    {
      SessionState(cart, user, pendingNetsOrderId, netsOrderFinalized, lastNetsOrderId)
    }

    predicate Valid()
      reads this
    {
      CartValid(cart)
    }
  }
}
