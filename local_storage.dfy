/** The browser's local key-value namespace as the application uses it: a `user` record and
    three document collections under `cvs`, `motivationLetters` and `resiliations`. Values are
    held as the records they parse to; their JSON encoding is not part of this model. */
module LocalStorage {
  import opened Wrappers

  /** The session record written by login and registration. Its names may be missing from a
      stored record, which is why they are optional. */
  datatype User = User(id: string, email: string, firstName: Option<string>, lastName: Option<string>)

  /** A stored document. `kind` is the `type` tag (stored letters carry none; the dashboard
      adds it), `date` is the timestamp the dashboard sorts on, `fields` the form values
      spread into the record when it was saved. */
  datatype Doc = Doc(
    id: string,
    name: string,
    content: string,
    date: int,
    kind: Option<string>,
    fields: map<string, string>)

  const CvsKey := "cvs"
  const LettersKey := "motivationLetters"
  const ResiliationsKey := "resiliations"

  /** The collection keys; logout removes these together with `user`. */
  const CollectionKeys: set<string> := {CvsKey, LettersKey, ResiliationsKey}

  /** `JSON.parse(localStorage.getItem(key) || "[]")`: an absent collection reads as empty. */
  function ReadCollection(collections: map<string, seq<Doc>>, key: string): (docs: seq<Doc>)
    ensures key !in collections ==> docs == []
    ensures key in collections ==> docs == collections[key]
  {
    if key in collections then collections[key] else []
  }

  class Store {
    /** The `user` key. */
    var user: Option<User>
    /** Every other key, each holding a collection of documents. */
    var collections: map<string, seq<Doc>>

    /** An empty namespace. */
    constructor ()
      ensures user == None && collections == map[]
    {
      user := None;
      collections := map[];
    }

    /** The collection under `key`, empty when the key is absent. */
    function Collection(key: string): seq<Doc>
      reads this
    {
      ReadCollection(collections, key)
    }

    /** Read the collection under `key`, push `d`, write it back. */
    method Append(key: string, d: Doc)
      modifies this
      ensures user == old(user)
      ensures collections == old(collections)[key := old(Collection(key)) + [d]]
    {
      var docs := Collection(key);
      docs := docs + [d];
      collections := collections[key := docs];
    }
  }
}
