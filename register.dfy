/** The registration page: its field rules and what submitting the form writes to the store. */
module Register {
  import opened Wrappers
  import opened LocalStorage
  import Credentials
  import Login

  datatype RegisterForm = RegisterForm(
    firstName: string,
    lastName: string,
    email: string,
    password: string,
    confirmPassword: string,
    terms: bool)

  /** `password` is accepted: required, at least 8 characters. */
  predicate PasswordAccepted(password: string) {
    |password| >= 8
  }

  /** The form passes its field rules: required names, a required e-mail matching the pattern,
      the password rule, a confirmation equal to the password, and the accepted terms. */
  predicate FormAccepted(f: RegisterForm) {
    && f.firstName != "" && f.lastName != ""
    && f.email != "" && Credentials.IsValidEmail(f.email)
    && PasswordAccepted(f.password)
    && f.confirmPassword != "" && f.confirmPassword == f.password
    && f.terms
  }

  /** The collections after registration: all three are reset to empty, other keys are kept. */
  function ResetCollections(m: map<string, seq<Doc>>): (r: map<string, seq<Doc>>)
    ensures r.Keys == m.Keys + CollectionKeys
    ensures forall k :: k in CollectionKeys ==> r[k] == []
    ensures forall k :: k in m && k !in CollectionKeys ==> r[k] == m[k]
  {
    m[CvsKey := []][LettersKey := []][ResiliationsKey := []]
  }

  /** Submitting the form: overwrite `user` with the form's names and e-mail, and reset the
      three collections whatever they held. `token` stands for the random base-36 suffix. */
  method Submit(store: Store, f: RegisterForm, token: string)
    modifies store
    ensures store.user == Some(User("user-" + token, f.email, Some(f.firstName), Some(f.lastName)))
    ensures store.collections == ResetCollections(old(store.collections))
  {
    store.user := Some(User("user-" + token, f.email, Some(f.firstName), Some(f.lastName)));
    store.collections := store.collections[CvsKey := []];
    store.collections := store.collections[LettersKey := []];
    store.collections := store.collections[ResiliationsKey := []];
  }

  /** Registration then login: login finds every collection present and changes nothing. */
  lemma LoginAfterRegister(m: map<string, seq<Doc>>)
    ensures Login.WithCollections(ResetCollections(m)) == ResetCollections(m)
  {
  }

  /** Every password registration accepts is also long enough for login. */
  lemma RegisteredPasswordLogsIn(f: RegisterForm)
    requires FormAccepted(f)
    ensures Login.FormAccepted(f.email, f.password)
  {
  }
}
