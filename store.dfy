/**
 * The document store's `users` collection, reduced to what the pages touch:
 * for each user document, its `favoriteCountries` field. Whether a single
 * read or write reaches the store is decided by the caller's `ok` argument;
 * the store itself decides only that an update needs an existing document.
 */
module Store {
  import opened Countries

  class FavoritesStore {
    /** User id to the document's `favoriteCountries` field (None: the field is absent); no key: no document. */
    var docs: map<string, Option<seq<string>>>

    constructor (initial: map<string, Option<seq<string>>>)
      ensures docs == initial
    {
      docs := initial;
    }

    /** `userDoc.data()?.favoriteCountries`: absent when the document or the field is. */
    function Field(uid: string): (f: Option<seq<string>>)
      reads this
      ensures f.Some? <==> uid in docs && docs[uid].Some?
      ensures f.Some? ==> f == docs[uid]
    {
      if uid in docs then docs[uid] else None
    }

    /** `userData?.favoriteCountries || []`: the stored list, empty when there is none. */
    function Favorites(uid: string): (list: seq<string>)
      reads this
      ensures Field(uid).Some? ==> list == Field(uid).value
      ensures Field(uid).None? ==> list == []
    {
      match Field(uid)
      case Some(l) => l
      case None => []
    }

    /**
     * `updateDoc(userRef, {favoriteCountries: list})`: replaces the field of
     * an existing document. It fails when the call does not get through or
     * when the user has no document, and then nothing changes.
     */
    method Update(uid: string, list: seq<string>, reached: bool) returns (ok: bool)
      modifies this
      ensures ok <==> reached && uid in old(docs)
      ensures docs == if ok then old(docs)[uid := Some(list)] else old(docs)
    {
      ok := reached && uid in docs;
      if ok {
        docs := docs[uid := Some(list)];
      }
    }
  }
}
