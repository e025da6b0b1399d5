/** The page header: the session it shows and the logout action. */
module Header {
  import opened Wrappers
  import opened LocalStorage

  /** `s.charAt(0)`: the first character, or "" for the empty string. */
  function FirstChar(s: string): (r: string)
    ensures |r| == if s == "" then 0 else 1
    ensures r <= s
  {
    if s == "" then "" else s[..1]
  }

  /** The avatar initials: first character of the first name, then of the last name. */
  function Initials(firstName: string, lastName: string): (r: string)
    ensures |r| == (if firstName == "" then 0 else 1) + (if lastName == "" then 0 else 1)
    ensures firstName != "" ==> r[0] == firstName[0]
    ensures lastName != "" ==> r[|r| - 1] == lastName[0]
    ensures r == "" <==> firstName == "" && lastName == ""
  {
    FirstChar(firstName) + FirstChar(lastName)
  }

  /** The namespace after logout: `user`'s collections are gone, every other key is kept. */
  function WithoutSession(m: map<string, seq<Doc>>): (r: map<string, seq<Doc>>)
    ensures r.Keys == m.Keys - CollectionKeys
    ensures forall k :: k in r ==> r[k] == m[k]
  {
    m - CollectionKeys
  }

  class Header {
    var isLoggedIn: bool
    var firstName: string
    var lastName: string

    constructor ()
      ensures !isLoggedIn && firstName == "" && lastName == ""
    {
      isLoggedIn, firstName, lastName := false, "", "";
    }

    /** The mount effect: with a stored user, show it (missing names read as "") and mark
        the session as logged in; without one, leave the header as it is. */
    method Mount(store: Store)
      modifies this
      ensures isLoggedIn == (store.user.Some? || old(isLoggedIn))
      ensures store.user.Some? ==> firstName == store.user.value.firstName.GetOr("")
      ensures store.user.Some? ==> lastName == store.user.value.lastName.GetOr("")
      ensures store.user.None? ==> firstName == old(firstName) && lastName == old(lastName)
    {
      if store.user.Some? {
        var u := store.user.value;
        firstName := u.firstName.GetOr("");
        lastName := u.lastName.GetOr("");
        isLoggedIn := true;
      }
    }

    /** Logout: remove `user` and the three collections, leave every other key, and show
        the logged-out header. */
    method Logout(store: Store)
      modifies this, store
      ensures store.user == None
      ensures store.collections == WithoutSession(old(store.collections))
      ensures !isLoggedIn
      ensures firstName == old(firstName) && lastName == old(lastName)
    {
      store.user := None;
      store.collections := store.collections - {CvsKey};
      store.collections := store.collections - {LettersKey};
      store.collections := store.collections - {ResiliationsKey};
      assert store.collections == old(store.collections) - CollectionKeys;
      isLoggedIn := false;
    }

    /** What the avatar shows. */
    function Avatar(): string
      reads this
    {
      Initials(firstName, lastName)
    }
  }

  /** Documents do not survive a session: after logout every collection reads as empty. */
  lemma LogoutForgetsDocuments(m: map<string, seq<Doc>>, key: string)
    requires key in CollectionKeys
    ensures ReadCollection(WithoutSession(m), key) == []
  {
  }
}
