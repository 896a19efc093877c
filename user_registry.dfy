/**
 * The in-memory user registry of the standalone login backend: a list of
 * users and the next id to hand out, the registration handler that
 * validates a JSON body before creating a user, and the login handler that
 * looks a user up by all three credentials.
 */
module UserRegistry {
  import opened Wrappers
  import opened Requests

  /** A user record; fields hold whatever `user_data.get(...)` gave, so `None` is possible. */
  datatype User = User(id: int, firstName: Option<string>, lastName: Option<string>, gitHubId: Option<string>)

  /** The fields registration requires, in the order they are checked. */
  const RegistrationFields := ["FirstName", "LastName", "GitHubID"]

  /** Does `u` carry exactly these credentials? */
  predicate Matches(u: User, firstName: string, lastName: string, gitHubId: string)
  {
    u.firstName == Some(firstName) && u.lastName == Some(lastName) && u.gitHubId == Some(gitHubId)
  }

  /** Some user already has this GitHub id (the duplicate check of `create`). */
  predicate Taken(users: seq<User>, gitHubId: Option<string>)
  {
    exists i :: 0 <= i < |users| && users[i].gitHubId == gitHubId
  }

  class UserModel {
    var users: seq<User>
    var nextId: int

    /** GitHub ids are unique, ids are distinct, and every id is below `nextId`. */
    ghost predicate Valid()
      reads this
    {
      && (forall i, j :: 0 <= i < j < |users| ==> users[i].gitHubId != users[j].gitHubId)
      && (forall i, j :: 0 <= i < j < |users| ==> users[i].id != users[j].id)
      && (forall i :: 0 <= i < |users| ==> users[i].id < nextId)
    }

    /** The two built-in users, John Doe and Jane Smith, and `next_id == 3`. */
    constructor()
      ensures users == [User(1, Some("John"), Some("Doe"), Some("johndoe")),
                        User(2, Some("Jane"), Some("Smith"), Some("janesmith"))]
      ensures nextId == 3
      ensures Valid()
    {
      users := [User(1, Some("John"), Some("Doe"), Some("johndoe")),
                User(2, Some("Jane"), Some("Smith"), Some("janesmith"))];
      nextId := 3;
    }

    /** `read()`: every user, in registration order. */
    method Read() returns (r: seq<User>)
      ensures r == users
    {
      r := users;
    }

    /**
     * `create(user_data)`: `None` and no change when the GitHub id is taken;
     * otherwise one user appended with the current `next_id`, which then
     * goes up by one.
     */
    method Create(userData: Object) returns (r: Option<User>)
      modifies this
      ensures Taken(old(users), Get(userData, "GitHubID")) ==>
        r == None && users == old(users) && nextId == old(nextId)
      ensures !Taken(old(users), Get(userData, "GitHubID")) ==>
        r == Some(User(old(nextId), Get(userData, "FirstName"), Get(userData, "LastName"), Get(userData, "GitHubID")))
        && users == old(users) + [r.value]
        && nextId == old(nextId) + 1
      ensures old(Valid()) ==> Valid()
    {
      var gitHubId := Get(userData, "GitHubID");
      var i := 0;
      while i < |users|
        invariant 0 <= i <= |users|
        invariant forall j :: 0 <= j < i ==> users[j].gitHubId != gitHubId
      {
        if users[i].gitHubId == gitHubId {
          return None;
        }
        i := i + 1;
      }
      var newUser := User(nextId, Get(userData, "FirstName"), Get(userData, "LastName"), gitHubId);
      users := users + [newUser];
      nextId := nextId + 1;
      return Some(newUser);
    }

    /** `find_user(...)`: the first user matching all three credentials, or `None`. */
    method FindUser(firstName: string, lastName: string, gitHubId: string) returns (r: Option<User>)
      ensures r.None? <==> forall i :: 0 <= i < |users| ==> !Matches(users[i], firstName, lastName, gitHubId)
      ensures r.Some? ==>
        exists k :: (0 <= k < |users| && users[k] == r.value
          && Matches(users[k], firstName, lastName, gitHubId)
          && forall j :: 0 <= j < k ==> !Matches(users[j], firstName, lastName, gitHubId))
    {
      var i := 0;
      while i < |users|
        invariant 0 <= i <= |users|
        invariant forall j :: 0 <= j < i ==> !Matches(users[j], firstName, lastName, gitHubId)
      {
        if Matches(users[i], firstName, lastName, gitHubId) {
          return Some(users[i]);
        }
        i := i + 1;
      }
      return None;
    }
  }

  /** Responses of the registration handler, with their HTTP status. */
  datatype RegisterResponse =
    | NoDataProvided        // 400 "No data provided"
    | FieldRequired(field: string)  // 400 "<field> is required"
    | AlreadyExists         // 409
    | Registered(user: User)  // 201

  function RegisterStatus(r: RegisterResponse): int
  {
    match r
    case NoDataProvided => 400
    case FieldRequired(_) => 400
    case AlreadyExists => 409
    case Registered(_) => 201
  }

  /**
   * `DataAPI.post`: reject an empty body, then the first of FirstName,
   * LastName, GitHubID that is missing or empty; a duplicate GitHub id
   * gives 409; otherwise the new user, 201.
   */
  method RegisterPost(model: UserModel, body: Body) returns (r: RegisterResponse)
    modifies model
    ensures CheckRequired(body, RegistrationFields).NoData? ==>
      r == NoDataProvided && model.users == old(model.users) && model.nextId == old(model.nextId)
    ensures CheckRequired(body, RegistrationFields).Required? ==>
      r == FieldRequired(CheckRequired(body, RegistrationFields).field)
      && model.users == old(model.users) && model.nextId == old(model.nextId)
    ensures CheckRequired(body, RegistrationFields).Complete? && Taken(old(model.users), Get(body.value, "GitHubID")) ==>
      r == AlreadyExists && model.users == old(model.users) && model.nextId == old(model.nextId)
    ensures CheckRequired(body, RegistrationFields).Complete? && !Taken(old(model.users), Get(body.value, "GitHubID")) ==>
      r == Registered(User(old(model.nextId), Get(body.value, "FirstName"), Get(body.value, "LastName"), Get(body.value, "GitHubID")))
      && model.users == old(model.users) + [r.user] && model.nextId == old(model.nextId) + 1
    ensures RegisterStatus(r) == 400 <==> !CheckRequired(body, RegistrationFields).Complete?
    ensures RegisterStatus(r) == 409 <==>
      CheckRequired(body, RegistrationFields).Complete? && Taken(old(model.users), Get(body.value, "GitHubID"))
    ensures RegisterStatus(r) == 201 <==>
      CheckRequired(body, RegistrationFields).Complete? && !Taken(old(model.users), Get(body.value, "GitHubID"))
    ensures old(model.Valid()) ==> model.Valid()
  {
    match CheckRequired(body, RegistrationFields)
    case NoData => return NoDataProvided;
    case Required(f) => return FieldRequired(f);
    case Complete(obj) =>
      var created := model.Create(obj);
      if created.None? {
        return AlreadyExists;
      }
      return Registered(created.value);
  }

  /** Responses of the login handler, with their HTTP status. */
  datatype LoginResponse =
    | LoginNoData           // 400 "No data provided"
    | CredentialsRequired   // 400 "FirstName, LastName, and GitHubID are required"
    | LoggedIn(user: User)  // 200
    | InvalidCredentials    // 401

  function LoginStatus(r: LoginResponse): int
  {
    match r
    case LoginNoData => 400
    case CredentialsRequired => 400
    case LoggedIn(_) => 200
    case InvalidCredentials => 401
  }

  /**
   * `LoginAPI.post`: 400 for an empty body or when any of the three
   * credentials is absent or empty, otherwise 200 with the first matching
   * user, or 401 when none matches.
   */
  method LoginPost(model: UserModel, body: Body) returns (r: LoginResponse)
    ensures body.None? || body.value == map[] ==> r == LoginNoData
    ensures body.Some? && body.value != map[] ==>
      var obj := body.value;
      if Falsy(Get(obj, "FirstName")) || Falsy(Get(obj, "LastName")) || Falsy(Get(obj, "GitHubID")) then
        r == CredentialsRequired
      else
        (r.LoggedIn? || r == InvalidCredentials)
        && (r == InvalidCredentials <==>
              forall i :: 0 <= i < |model.users| ==>
                !Matches(model.users[i], obj["FirstName"], obj["LastName"], obj["GitHubID"]))
        && (r.LoggedIn? ==>
              exists k :: (0 <= k < |model.users| && model.users[k] == r.user
                && Matches(model.users[k], obj["FirstName"], obj["LastName"], obj["GitHubID"])
                && forall j :: 0 <= j < k ==> !Matches(model.users[j], obj["FirstName"], obj["LastName"], obj["GitHubID"])))
    ensures LoginStatus(r) == 400 <==>
      body.None? || body.value == map[]
      || Falsy(Get(body.value, "FirstName")) || Falsy(Get(body.value, "LastName")) || Falsy(Get(body.value, "GitHubID"))
    ensures LoginStatus(r) == 200 <==>
      body.Some? && body.value != map[]
      && !Falsy(Get(body.value, "FirstName")) && !Falsy(Get(body.value, "LastName")) && !Falsy(Get(body.value, "GitHubID"))
      && exists i :: 0 <= i < |model.users|
           && Matches(model.users[i], body.value["FirstName"], body.value["LastName"], body.value["GitHubID"])
  {
    if body.None? || body.value == map[] {
      return LoginNoData;
    }
    var obj := body.value;
    var firstName := Get(obj, "FirstName");
    var lastName := Get(obj, "LastName");
    var gitHubId := Get(obj, "GitHubID");
    if Falsy(firstName) || Falsy(lastName) || Falsy(gitHubId) {
      return CredentialsRequired;
    }
    var user := model.FindUser(firstName.value, lastName.value, gitHubId.value);
    if user.Some? {
      return LoggedIn(user.value);
    }
    return InvalidCredentials;
  }
}
