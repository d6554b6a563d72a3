/** The frame of the admin area (client-side/src/layouts/AdminLayout.jsx): the token
    guard, the greeting, and the logout. */
module AdminLayout {
  import opened Shared
  import opened Api

  const LogoutPath := "/auth/logout"

  /** `user?.name || 'Admin'`. */
  function DisplayName(user: Option<User>): (name: string)
    ensures user.Some? && Truthy(user.value.name) ==> name == user.value.name.value
    ensures !(user.Some? && Truthy(user.value.name)) ==> name == "Admin"
    ensures name != ""
  {
    if user.Some? && user.value.name.Some? && user.value.name.value != "" then user.value.name.value else "Admin"
  }

  function LogoutRequest(): Request {
    Request(Post, LogoutPath, NoPayload, map[])
  }

  class Layout {
    const api: Client

    constructor (api: Client)
      ensures this.api == api
    {
      this.api := api;
    }

    /** The token guard: without a stored token the layout only redirects to the login
        page; with one it renders and changes nothing. */
    method Guard() returns (renders: bool)
      modifies api`location
      ensures renders <==> Truthy(api.session.token)
      ensures !renders ==> api.location == LoginPath
      ensures renders ==> api.location == old(api.location)
    {
      if !Truthy(api.session.token) {
        api.location := LoginPath;
        return false;
      }
      return true;
    }

    /** `handleLogout`: nothing without confirmation; otherwise the logout call is made
        and, however it ends, the session is removed and the browser goes to the login
        page. */
    method HandleLogout(confirmed: bool, answer: Outcome<()>)
      modifies api
      ensures !confirmed ==> unchanged(api)
      ensures confirmed ==>
                api.Snapshot() == Browser(SignedOut, LoginPath, old(api.sent) + [Stamp(LogoutRequest(), old(api.session))])
    {
      if !confirmed {
        return;
      }
      var r := api.Send(LogoutRequest(), answer);
      api.session := api.session.(token := None);
      api.session := api.session.(user := None);
      api.location := LoginPath;
    }
  }
}
