/** The edge `middleware`: API routes and static files pass; every other page
    needs the `access_token` cookie, except `/login`, which is only for
    visitors without one. */
module Middleware {
  import opened Wrappers
  import opened Text

  datatype Decision = Next | Redirect(target: string)

  const StaticExtensions: seq<string> := [".ico", ".png", ".jpg", ".jpeg", ".svg", ".gif", ".webp"]

  /** `/api…`, `/_next…`, or a name ending in one of the image extensions. */
  predicate IsPassThrough(pathname: string) {
    StartsWith(pathname, "/api") || StartsWith(pathname, "/_next")
    || exists e :: e in StaticExtensions && EndsWith(pathname, e)
  }

  /** The cookie is truthy: present and not empty. */
  predicate HasToken(token: Option<string>) {
    token.Some? && token.value != ""
  }

  function Decide(pathname: string, token: Option<string>): (d: Decision)
    ensures IsPassThrough(pathname) ==> d == Next
    ensures !IsPassThrough(pathname) ==>
      (d == Redirect("/login") <==> !HasToken(token) && pathname != "/login")
    ensures !IsPassThrough(pathname) ==>
      (d == Redirect("/inventory") <==> HasToken(token) && pathname == "/login")
    ensures d.Redirect? ==> d.target == "/login" || d.target == "/inventory"
  {
    if IsPassThrough(pathname) then Next
    else if !HasToken(token) && pathname != "/login" then Redirect("/login")
    else if HasToken(token) && pathname == "/login" then Redirect("/inventory")
    else Next
  }

  /** A redirect never points back at the requested path. */
  lemma NoSelfRedirect(pathname: string, token: Option<string>)
    ensures Decide(pathname, token).Redirect? ==> Decide(pathname, token).target != pathname
  {
  }

  /** The two redirect targets are pages, not API routes or files. */
  lemma TargetsAreProtectedPages()
    ensures !IsPassThrough("/login") && !IsPassThrough("/inventory")
  {
    assert "/login"[..4][1] == 'l' && "/login"[..6][1] == 'l';
    assert "/inventory"[..4][1] == 'i' && "/inventory"[..6][1] == 'i';
    forall e | e in StaticExtensions
      ensures !EndsWith("/login", e) && !EndsWith("/inventory", e)
    {
      assert "/login"[|"/login"| - |e|..][|e| - 1] == 'n';
      assert "/inventory"[|"/inventory"| - |e|..][|e| - 1] == 'y';
    }
  }

  /** Following a redirect with the same cookie lands on a page that lets the
      request through: there are no redirect loops. */
  lemma RedirectTargetsSettle(pathname: string, token: Option<string>)
    ensures Decide(pathname, token).Redirect? ==> Decide(Decide(pathname, token).target, token) == Next
  {
    TargetsAreProtectedPages();
  }

  /** The decision looks only at whether a token is there, not at its value. */
  lemma OnlyPresenceMatters(pathname: string, t1: Option<string>, t2: Option<string>)
    requires HasToken(t1) == HasToken(t2)
    ensures Decide(pathname, t1) == Decide(pathname, t2)
  {
  }

  /** A protected page is served only to a request that carries a token. */
  lemma ProtectedPagesNeedToken(pathname: string, token: Option<string>)
    requires !IsPassThrough(pathname) && pathname != "/login"
    ensures Decide(pathname, token) == Next <==> HasToken(token)
  {
  }
}
