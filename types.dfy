/** The records the client exchanges with its gateway, and the shape of a gateway reply. */
module Types {
  import opened Wrappers

  /** A signed-in user. `age`, `weight` and `goal` are optional profile fields;
      `token` is only present once `login` has merged the JWT into the record. */
  datatype User = User(
    id: string,
    username: string,
    email: string,
    age: Option<int>,
    weight: Option<int>,
    goal: Option<string>,
    token: Option<string>)

  /** A logged meal. `createdAt` is an ISO 8601 date-time string when present. */
  datatype FoodEntry = FoodEntry(
    id: string,
    name: string,
    calories: int,
    mealType: string,
    createdAt: Option<string>)

  /** A logged activity; `duration` is in minutes. */
  datatype ActivityEntry = ActivityEntry(
    id: string,
    name: string,
    duration: int,
    calories: int,
    createdAt: Option<string>)

  /** What the login form sends: `username` is only sent on sign-up. */
  datatype Credentials = Credentials(username: Option<string>, email: string, password: string)

  /** The body of a successful `auth.register` or `auth.login` reply. */
  datatype AuthData = AuthData(user: User, jwt: string)

  /** The outcome of one awaited gateway call: it either rejects (the awaiting
      function throws at that point) or resolves with `{ data }`. */
  datatype Reply<+T> = Rejected | Resolved(data: T)
}
