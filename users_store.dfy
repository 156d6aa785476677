/**
 * The users store (`UsersStore`): users, a loading flag and an error message.
 * A load is split into its start and the two callbacks of the request it makes.
 */
module UsersStore {
  import opened Wrappers
  import opened Models

  const DefaultLoadLimit: nat := 10
  const LoadErrorMessage: string := "Error cargando usuarios"

  class UsersStore {
    var users: seq<User>
    var loading: bool
    var error: Option<string>
    /** The `limit` of every `getUsers` request made, oldest first. */
    var requests: seq<nat>

    constructor()
      ensures users == [] && !loading && error == None && requests == []
    {
      users := [];
      loading := false;
      error := None;
      requests := [];
    }

    /** `loadUsers(limit)`: starts loading, clears any earlier error and requests `limit` users. */
    method LoadUsers(limit: nat := DefaultLoadLimit)
      modifies this
      ensures loading && error == None
      ensures users == old(users) && requests == old(requests) + [limit]
    {
      loading := true;
      error := None;
      requests := requests + [limit];
    }

    /** The request's `next` callback: the result replaces the users wholesale. */
    method OnNext(result: seq<User>)
      modifies this`users, this`loading
      ensures users == result && !loading
    {
      users := result;
      loading := false;
    }

    /** The request's `error` callback: records the message and keeps the users. */
    method OnError()
      modifies this`error, this`loading
      ensures error == Some(LoadErrorMessage) && !loading
    {
      error := Some(LoadErrorMessage);
      loading := false;
    }
  }
}
