/**
 The browser's key-value store (`localStorage`) and the three entries a
 successful sign-in or sign-up writes to it. The store is one object shared by
 every screen; nothing in the modelled screens reads it back.
 */
module Session {

  const IsLoggedInKey := "isLoggedIn"
  const UserTypeKey := "userType"
  const UserPhoneKey := "userPhone"

  /** The keys a successful submit writes. */
  function SessionKeys(): (ks: set<string>)
    ensures |ks| == 3
  {
    assert IsLoggedInKey != UserTypeKey && IsLoggedInKey[2] != UserPhoneKey[2] && UserTypeKey[0] != UserPhoneKey[4];
    {IsLoggedInKey, UserTypeKey, UserPhoneKey}
  }

  /** The store after the three writes of a successful submit, in the order the
      screens perform them: the logged-in flag, the role name, the phone. */
  function SessionWrite(items: map<string, string>, userType: string, phone: string): map<string, string>
  {
    items[IsLoggedInKey := "true"][UserTypeKey := userType][UserPhoneKey := phone]
  }

  /** After the writes each of the three keys holds what was written, whatever
      it held before, and every other key is exactly as it was. */
  lemma SessionWriteEffect(items: map<string, string>, userType: string, phone: string, k: string)
    ensures var r := SessionWrite(items, userType, phone);
      && r.Keys == items.Keys + SessionKeys()
      && r[IsLoggedInKey] == "true" && r[UserTypeKey] == userType && r[UserPhoneKey] == phone
      && (k !in SessionKeys() ==> (k in r <==> k in items) && (k in items ==> r[k] == items[k]))
  {
    assert IsLoggedInKey != UserTypeKey && IsLoggedInKey[2] != UserPhoneKey[2] && UserTypeKey[0] != UserPhoneKey[4];
  }

  /** `localStorage`: string keys to string values, written with `setItem`. */
  class Storage {
    var items: map<string, string>

    /** The store as the browser has it when the screen opens. */
    constructor (initial: map<string, string>)
      ensures items == initial
    {
      items := initial;
    }

    /** `setItem(key, value)` adds or overwrites one entry. */
    method SetItem(key: string, value: string)
      modifies this
      ensures items == old(items)[key := value]
    {
      items := items[key := value];
    }
  }
}
