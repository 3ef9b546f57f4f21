/**
  The demonstration user store (`src/hooks/useMockUser.ts`): any email and
  password log in.  The generated id is a parameter; the simulated delay and
  the persistence middleware are not part of this model.
*/
module MockUser {
  import opened Wrappers
  import Text

  /** The user object the store builds: id, name and email. */
  datatype User = User(id: string, name: string, email: string)

  /** `email.split("@")[0]`. */
  function NameFromEmail(email: string): string
  {
    Text.Before(email, '@')
  }

  /** The name is what precedes the first '@', or the whole address when it has none. */
  lemma NameFromEmailSpec(email: string)
    ensures var name := NameFromEmail(email);
      && '@' !in name
      && Text.StartsWith(email, name)
      && (|name| < |email| ==> email[|name|] == '@')
      && ('@' !in email ==> name == email)
  {
  }

  lemma NameFromEmailExample()
    ensures NameFromEmail("ann@example.com") == "ann"
  {
    assert "ann@example.com" == "ann" + "@example.com";
    assert NameFromEmail("@example.com") == [];
  }

  class MockUserStore {
    var user: Option<User>
    var isAuthenticated: bool

    /** Signed in exactly when a user is stored. */
    predicate Valid()
      reads this
    {
      isAuthenticated <==> user.Some?
    }

    /** `user: null, isAuthenticated: false`. */
    constructor ()
      ensures user == None && !isAuthenticated && Valid()
    {
      user := None;
      isAuthenticated := false;
    }

    /** `login(email, password)`: signs in a user named after the address. */
    method Login(email: string, password: string, id: string) returns (u: User)
      modifies this
      ensures u == User(id, NameFromEmail(email), email)
      ensures user == Some(u) && isAuthenticated && Valid()
    {
      u := User(id, NameFromEmail(email), email);
      user := Some(u);
      isAuthenticated := true;
    }

    /** `register(name, email, password)`: signs in a user with the given name and address. */
    method Register(name: string, email: string, password: string, id: string) returns (u: User)
      modifies this
      ensures u == User(id, name, email)
      ensures user == Some(u) && isAuthenticated && Valid()
    {
      u := User(id, name, email);
      user := Some(u);
      isAuthenticated := true;
    }

    /** `logout()`. */
    method Logout()
      modifies this
      ensures user == None && !isAuthenticated && Valid()
    {
      user := None;
      isAuthenticated := false;
    }
  }
}
