/** The login page: its field rules and what submitting the form writes to the store. */
module Login {
  import opened Wrappers
  import opened LocalStorage
  import Credentials

  /** `password` is accepted: required, at least 6 characters. */
  predicate PasswordAccepted(password: string) {
    |password| >= 6
  }

  /** The form passes its field rules: a required e-mail matching the pattern, and the password rule. */
  predicate FormAccepted(email: string, password: string) {
    email != "" && Credentials.IsValidEmail(email) && PasswordAccepted(password)
  }

  /** `email.split('@')[0]`: everything before the first `@`, or all of `email` when it has none. */
  function LocalPart(email: string): (r: string)
    ensures r <= email
    ensures '@' !in r
    ensures |r| == |email| || email[|r|] == '@'
  {
    if email == [] || email[0] == '@' then ""
    else [email[0]] + LocalPart(email[1..])
  }

  /** The mock user derived from the e-mail; `token` stands for the random base-36 suffix. */
  function UserFor(email: string, token: string): (u: User)
    ensures "user-" <= u.id
    ensures u.email == email && u.lastName == Some("Utilisateur")
    ensures u.firstName == Some(LocalPart(email))
  {
    User("user-" + token, email, Some(LocalPart(email)), Some("Utilisateur"))
  }

  /** The three collections after login: each is created empty if absent, kept otherwise. */
  function WithCollections(m: map<string, seq<Doc>>): (r: map<string, seq<Doc>>)
    ensures r.Keys == m.Keys + CollectionKeys
    ensures forall k :: k in m ==> r[k] == m[k]
    ensures forall k :: k in CollectionKeys && k !in m ==> r[k] == []
  {
    var m1 := if CvsKey in m then m else m[CvsKey := []];
    var m2 := if LettersKey in m1 then m1 else m1[LettersKey := []];
    if ResiliationsKey in m2 then m2 else m2[ResiliationsKey := []]
  }

  /** Submitting the form: overwrite `user`, then create each collection only if absent. */
  method Submit(store: Store, email: string, token: string)
    modifies store
    ensures store.user == Some(UserFor(email, token))
    ensures store.collections == WithCollections(old(store.collections))
  {
    store.user := Some(User("user-" + token, email, Some(LocalPart(email)), Some("Utilisateur")));
    if CvsKey !in store.collections {
      store.collections := store.collections[CvsKey := []];
    }
    if LettersKey !in store.collections {
      store.collections := store.collections[LettersKey := []];
    }
    if ResiliationsKey !in store.collections {
      store.collections := store.collections[ResiliationsKey := []];
    }
  }

  /** Logging in again changes no collection: the initialisation is idempotent. */
  lemma WithCollectionsIdempotent(m: map<string, seq<Doc>>)
    ensures WithCollections(WithCollections(m)) == WithCollections(m)
  {
  }

  /** After login every collection reads back exactly as it did before, absent ones as empty. */
  lemma LoginPreservesDocuments(m: map<string, seq<Doc>>, key: string)
    ensures ReadCollection(WithCollections(m), key) == ReadCollection(m, key)
  {
  }
}
