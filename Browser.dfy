/**
 * The browser state the pages share: the cookie jar (`document.cookie`,
 * read by the route guard as `request.cookies`), `localStorage`, and the
 * navigations requested through `router.push`.
 */
module BrowserState {
  import opened Wrappers

  class Browser {
    var cookies: map<string, string>
    var storage: map<string, string>
    /** Every URL passed to `router.push`, oldest first. */
    var history: seq<string>

    constructor (cookies: map<string, string>, storage: map<string, string>)
      ensures this.cookies == cookies && this.storage == storage && history == []
    {
      this.cookies := cookies;
      this.storage := storage;
      history := [];
    }

    /** `cookies.get(name)?.value` */
    function Cookie(name: string): (r: Option<string>)
      reads this
    {
      if name in cookies then Some(cookies[name]) else None
    }

    /** `document.cookie = "<name>=<value>; path=/"` */
    method SetCookie(name: string, value: string)
      modifies this
      ensures cookies == old(cookies)[name := value]
      ensures storage == old(storage) && history == old(history)
    {
      cookies := cookies[name := value];
    }

    /** `document.cookie = "<name>=; path=/; max-age=0"`: the cookie is deleted. */
    method ExpireCookie(name: string)
      modifies this
      ensures cookies == old(cookies) - {name}
      ensures storage == old(storage) && history == old(history)
    {
      cookies := cookies - {name};
    }

    /** `localStorage.removeItem(key)` */
    method RemoveItem(key: string)
      modifies this
      ensures storage == old(storage) - {key}
      ensures cookies == old(cookies) && history == old(history)
    {
      storage := storage - {key};
    }

    /** `router.push(url)` */
    method Push(url: string)
      modifies this
      ensures history == old(history) + [url]
      ensures cookies == old(cookies) && storage == old(storage)
    {
      history := history + [url];
    }
  }
}
