/** The browser state the dashboard shares between the API client and the
    auth provider: `localStorage`, the `admin_token` cookie that mirrors the
    access token for the server-side middleware, and `window.location`. */
module Web {
  import opened Common

  type Storage = map<string, string>

  const AdminTokenKey := "admin_token"
  const RefreshTokenKey := "admin_refresh_token"
  const CsrfTokenKey := "csrf_token"

  /** `localStorage.getItem(key)`, with `null` read as `""`. */
  function Get(s: Storage, key: string): string {
    if key in s then s[key] else ""
  }

  /** `if (localStorage.getItem(key))`: the key is stored with a non-empty value. */
  predicate Has(s: Storage, key: string) {
    key in s && s[key] != ""
  }

  lemma GetHas(s: Storage, key: string)
    ensures Has(s, key) <==> Get(s, key) != ""
  {
  }

  class Browser {
    var storage: Storage
    /** The `admin_token` cookie: `Some(t)` after `admin_token=t`, `None`
        after it is expired. */
    var cookieToken: Option<string>
    /** `window.location.href`. */
    var location: string

    constructor (storage: Storage, cookieToken: Option<string>, location: string)
      ensures this.storage == storage && this.cookieToken == cookieToken && this.location == location
    {
      this.storage := storage;
      this.cookieToken := cookieToken;
      this.location := location;
    }
  }
}
