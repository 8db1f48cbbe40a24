/**
 * The request guards of app.js: the login and admin middleware, registration validation and the
 * login handler's redirect by role. The add-to-cart quantity default is
 * `CartController.DefaultQuantity`.
 */
module App {
  import opened Wrappers
  import opened JsValues
  import opened Sessions
  import opened Http

  /** `checkAuthenticated`: pass when someone is logged in, else go to the login page. */
  function CheckAuthenticated(user: Option<User>): (r: Response)
    ensures r == Next <==> user.Some?
    ensures r != Next ==> r == Redirect("/login")
  {
    if user.Some? then Next else Redirect("/login")
  }

  /**
   * `checkAdmin`: pass for role 'admin' exactly, else go to the shopping page. It reads
   * `req.session.user.role` unguarded, so without a user it throws.
   */
  function CheckAdmin(user: Option<User>): (r: Response)
    ensures r == Next <==> user.Some? && user.value.role == "admin"
    ensures r == Crash <==> user.None?
    ensures r != Next && r != Crash ==> r == Redirect("/shopping")
  {
    if user.None? then Crash else if user.value.role == "admin" then Next else Redirect("/shopping")
  }

  /** Two middleware in sequence: the second runs only when the first passes. */
  function Chain(first: Response, second: Response): Response {
    if first == Next then second else first
  }

  /**
   * The admin routes mount `checkAuthenticated` before `checkAdmin`, so an admin route never
   * throws: a visitor goes to /login, a logged-in non-admin to /shopping, and an admin passes.
   */
  lemma AdminRouteGuard(user: Option<User>)
    ensures var r := Chain(CheckAuthenticated(user), CheckAdmin(user));
      && r != Crash
      && (r == Next <==> user.Some? && user.value.role == "admin")
      && (user.None? ==> r == Redirect("/login"))
      && (user.Some? && user.value.role != "admin" ==> r == Redirect("/shopping"))
  {
  }

  /** The registration form; `None` is a field that was not sent. */
  datatype Registration = Registration(
    username: Option<string>, email: Option<string>, password: Option<string>,
    address: Option<string>, contact: Option<string>, role: Option<string>)

  predicate AllFieldsPresent(b: Registration) {
    Present(b.username) && Present(b.email) && Present(b.password)
    && Present(b.address) && Present(b.contact) && Present(b.role)
  }

  const MinPasswordLength := 6

  /** `validateRegistration`: missing fields are a 400, a short password goes back to the form. */
  function ValidateRegistration(b: Registration): (r: Response)
    ensures r == Status(400) <==> !AllFieldsPresent(b)
    ensures r == Redirect("/register") <==> AllFieldsPresent(b) && |b.password.value| < MinPasswordLength
    ensures r == Next <==> AllFieldsPresent(b) && |b.password.value| >= MinPasswordLength
  {
    if !AllFieldsPresent(b) then Status(400)
    else if |b.password.value| < MinPasswordLength then Redirect("/register")
    else Next
  }

  /** A six-character password is long enough; a five-character one is not. */
  lemma PasswordLengthBoundary(b: Registration)
    requires AllFieldsPresent(b)
    ensures |b.password.value| == 6 ==> ValidateRegistration(b) == Next
    ensures |b.password.value| == 5 ==> ValidateRegistration(b) == Redirect("/register")
  {
  }

  /** The session user and the response after a login attempt. */
  datatype LoginOutcome = LoginOutcome(user: Option<User>, response: Response)

  /**
   * `POST /login`: `found` is the first user whose e-mail and password hash match. A missing
   * field or a failed match goes back to /login with the session as it was; a match logs in and
   * sends role 'user' to the shop and every other role to the inventory.
   */
  function Login(email: Option<string>, password: Option<string>, found: Option<User>, current: Option<User>)
    : (r: LoginOutcome)
    ensures !Present(email) || !Present(password) ==> r == LoginOutcome(current, Redirect("/login"))
    ensures Present(email) && Present(password) && found.None? ==> r == LoginOutcome(current, Redirect("/login"))
    ensures Present(email) && Present(password) && found.Some? ==>
      && r.user == found
      && r.response == Redirect(if found.value.role == "user" then "/shopping" else "/inventory")
  {
    if !Present(email) || !Present(password) then LoginOutcome(current, Redirect("/login"))
    else if found.None? then LoginOutcome(current, Redirect("/login"))
    else LoginOutcome(found, Redirect(if found.value.role == "user" then "/shopping" else "/inventory"))
  }

  /** Whoever logs in is let through `checkAuthenticated`, and through `checkAdmin` exactly when admin. */
  lemma LoginThenGuards(email: Option<string>, password: Option<string>, found: Option<User>, current: Option<User>)
    requires Present(email) && Present(password) && found.Some?
    ensures var u := Login(email, password, found, current).user;
      CheckAuthenticated(u) == Next && (CheckAdmin(u) == Next <==> found.value.role == "admin")
  {
  }
}
