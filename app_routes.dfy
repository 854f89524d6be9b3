/** The application shell: the two route guards, the routing table with
    its catch-all redirect, and how the guards learn whether the session
    restore has finished. */
module App {
  import opened JsValues

  /** What a guard renders: nothing, a `<Navigate replace>` to a path, or
      its children. */
  datatype Guarded<C> = RenderNothing | Redirect(to: string) | Render(children: C)

  /** `ProtectedRoute`: wait for the session restore, send visitors without
      a user to the login page, and show the children to a signed-in user. */
  function ProtectedRoute<U, C>(authReady: bool, user: Option<U>, children: C): (g: Guarded<C>)
    ensures g.RenderNothing? <==> !authReady
    ensures g.Render? <==> authReady && user.Some?
    ensures g.Render? ==> g.children == children
    ensures g.Redirect? ==> g.to == "/login"
  {
    if !authReady then RenderNothing
    else if user.None? then Redirect("/login")
    else Render(children)
  }

  /** `PublicRoute`: wait for the session restore, send a signed-in user to
      the home page, and show the children to a visitor without a user. */
  function PublicRoute<U, C>(authReady: bool, user: Option<U>, children: C): (g: Guarded<C>)
    ensures g.RenderNothing? <==> !authReady
    ensures g.Render? <==> authReady && user.None?
    ensures g.Render? ==> g.children == children
    ensures g.Redirect? ==> g.to == "/"
  {
    if !authReady then RenderNothing
    else if user.Some? then Redirect("/")
    else Render(children)
  }

  /** For any readiness and user, at most one of the two guards shows its
      children, and once ready exactly one does. */
  lemma GuardsExclusive<U, C>(authReady: bool, user: Option<U>, a: C, b: C)
    ensures !(ProtectedRoute(authReady, user, a).Render? && PublicRoute(authReady, user, b).Render?)
    ensures authReady ==> ProtectedRoute(authReady, user, a).Render? || PublicRoute(authReady, user, b).Render?
  {
  }

  datatype Page = LoginForm | SignUpForm | HomePage | LearningPage | FlashcardsPage | ProgressPage

  /** What a route shows: a page, with or without the navigation bar. */
  datatype Screen = Screen(navigation: bool, page: Page)

  /** ASCII lower-casing. Without the `u` flag, a case-insensitive JavaScript
      regular expression never folds a non-ASCII character onto an ASCII
      letter, so on the all-ASCII patterns below this is exactly the
      router's case-insensitivity. */
  function LowerAscii(c: char): char {
    if 'A' <= c <= 'Z' then (c as int + 32) as char else c
  }

  /** `<Route path={pattern}>` matching a location path, as the router
      compiles a pattern without parameters: the pattern's characters in any
      case, then any number of slashes. */
  predicate Matches(pattern: string, path: string) {
    && |pattern| <= |path|
    && (forall k :: 0 <= k < |pattern| ==> LowerAscii(path[k]) == pattern[k])
    && (forall k :: |pattern| <= k < |path| ==> path[k] == '/')
  }

  /** A lower-case pattern matches itself. */
  lemma MatchesItself(pattern: string)
    requires forall k :: 0 <= k < |pattern| ==> LowerAscii(pattern[k]) == pattern[k]
    ensures Matches(pattern, pattern)
  {
  }

  /** `<Routes>`: the element rendered for a path. Before the session
      restore every listed path renders nothing; a redirect only ever goes
      to "/" or "/login"; a screen is shown only once ready, and it has the
      navigation bar exactly when a user is signed in. */
  function Route<U>(path: string, authReady: bool, user: Option<U>): (g: Guarded<Screen>)
    ensures g.RenderNothing? <==> !authReady && IsRoute(path)
    ensures g.Redirect? ==> g.to == "/" || g.to == "/login"
    ensures g.Render? ==> authReady && (g.children.navigation <==> user.Some?)
  {
    if Matches("/login", path) then PublicRoute(authReady, user, Screen(false, LoginForm))
    else if Matches("/signup", path) then PublicRoute(authReady, user, Screen(false, SignUpForm))
    else if Matches("/", path) then ProtectedRoute(authReady, user, Screen(true, HomePage))
    else if Matches("/learning", path) then ProtectedRoute(authReady, user, Screen(true, LearningPage))
    else if Matches("/flashcards", path) then ProtectedRoute(authReady, user, Screen(true, FlashcardsPage))
    else if Matches("/progress", path) then ProtectedRoute(authReady, user, Screen(true, ProgressPage))
    else Redirect("/")
  }

  /** The path matches one of the six listed routes. */
  predicate IsRoute(path: string) {
    || Matches("/login", path) || Matches("/signup", path) || Matches("/", path)
    || Matches("/learning", path) || Matches("/flashcards", path) || Matches("/progress", path)
  }

  /** Any path outside the table is redirected to "/", whatever the state. */
  lemma UnmatchedRedirectsHome<U>(path: string, authReady: bool, user: Option<U>)
    requires !IsRoute(path)
    ensures Route(path, authReady, user) == Redirect("/")
  {
  }

  /** The router's leniency: a signed-in user who types "/Learning/" gets the
      learning page, and a visitor who types "/LOGIN//" gets the login form. */
  lemma CaseAndTrailingSlashes<U>(u: U)
    ensures Route("/Learning/", true, Some(u)) == Render(Screen(true, LearningPage))
    ensures Route<U>("/LOGIN//", true, None) == Render(Screen(false, LoginForm))
  {
    assert Matches("/learning", "/Learning/");
    assert !Matches("/login", "/Learning/") by {
      assert LowerAscii("/Learning/"[2]) != "/login"[2];
    }
    assert !Matches("/signup", "/Learning/") by {
      assert LowerAscii("/Learning/"[1]) != "/signup"[1];
    }
    assert !Matches("/", "/Learning/") by {
      assert "/Learning/"[1] != '/';
    }
    assert Matches("/login", "/LOGIN//");
  }

  /** What the browser ends up showing for a path after following at most
      `hops` redirects: still only redirects to "/" or "/login", and a
      screen with the navigation bar exactly when a user is signed in. */
  function Settle<U>(path: string, authReady: bool, user: Option<U>, hops: nat): (g: Guarded<Screen>)
    ensures g.Redirect? ==> g.to == "/" || g.to == "/login"
    ensures g.Render? ==> authReady && (g.children.navigation <==> user.Some?)
    decreases hops
  {
    var g := Route(path, authReady, user);
    if g.Redirect? && hops > 0 then Settle(g.to, authReady, user, hops - 1) else g
  }

  /** How the two redirect targets route. */
  lemma TargetsRoute<U>(authReady: bool, user: Option<U>)
    ensures Route("/", authReady, user) == ProtectedRoute(authReady, user, Screen(true, HomePage))
    ensures Route("/login", authReady, user) == PublicRoute(authReady, user, Screen(false, LoginForm))
  {
    MatchesItself("/");
    MatchesItself("/login");
  }

  /** Once the session restore has finished, two redirects settle every
      path: a signed-in user sees a page with the navigation bar, a visitor
      without a user sees the login or the sign-up form. Before it
      finishes, every path settles on nothing. */
  lemma {:induction false} EveryPathSettles<U>(path: string, authReady: bool, user: Option<U>)
    ensures var g := Settle(path, authReady, user, 2);
            && (!authReady ==> g == RenderNothing)
            && (authReady && user.Some? ==> g.Render? && g.children.navigation)
            && (authReady && user.None? ==> g.Render? && g.children.page in {LoginForm, SignUpForm})
  {
    TargetsRoute(authReady, user);
    var g1 := Route(path, authReady, user);
    if g1.Redirect? {
      var g2 := Route(g1.to, authReady, user);
      if g2.Redirect? {
        assert Settle(g1.to, authReady, user, 1) == Settle(g2.to, authReady, user, 0);
      }
    }
  }

  // ---------------------------------------------------------------------
  // Where the guards get `authReady` from

  /** The members of the value the auth context provides that the guards
      read: the user, and the `authLoading` flag (the provider exposes no
      `authReady` member). */
  datatype ContextValue<U> = ContextValue(user: Option<U>, authLoading: bool)

  /** `const { user, authReady } = useAuth()` as written: the value has no
      `authReady` member, so the read gives `undefined`, which `!authReady`
      treats as false. */
  function AuthReadyAsWritten<U>(value: ContextValue<U>): bool {
    false
  }

  /** As written, every path settles on nothing, whatever the user and
      however long ago the session restore finished: the application shows
      a blank page. */
  lemma AsWrittenEveryPathBlank<U>(value: ContextValue<U>, path: string, hops: nat)
    requires hops > 0
    ensures Settle(path, AuthReadyAsWritten(value), value.user, hops) == RenderNothing
  {
    TargetsRoute(false, value.user);
  }

  /** The evidently intended reading: ready exactly when loading is over. */
  function AuthReady<U>(value: ContextValue<U>): bool {
    !value.authLoading
  }

  /** The screen for a path, with readiness taken from the context value. */
  function View<U>(value: ContextValue<U>, path: string): Guarded<Screen> {
    Settle(path, AuthReady(value), value.user, 2)
  }

  /** With the corrected reading, once loading is over a signed-in user sees
      the page a protected path names and the home page from every other
      path (the login and sign-up pages send it there too); a visitor
      without a user sees the sign-up form on its path and the login form
      from every other path. */
  lemma ReadyViews<U>(value: ContextValue<U>, path: string)
    requires !value.authLoading
    ensures value.user.Some? && Matches("/learning", path) ==>
              View(value, path) == Render(Screen(true, LearningPage))
    ensures value.user.Some? && Matches("/flashcards", path) ==>
              View(value, path) == Render(Screen(true, FlashcardsPage))
    ensures value.user.Some? && Matches("/progress", path) ==>
              View(value, path) == Render(Screen(true, ProgressPage))
    ensures value.user.Some? && !Matches("/learning", path) && !Matches("/flashcards", path)
              && !Matches("/progress", path) ==>
              View(value, path) == Render(Screen(true, HomePage))
    ensures value.user.None? && Matches("/signup", path) ==>
              View(value, path) == Render(Screen(false, SignUpForm))
    ensures value.user.None? && !Matches("/signup", path) ==>
              View(value, path) == Render(Screen(false, LoginForm))
  {
    TargetsRoute(true, value.user);
    PatternsExclusive(path);
  }

  /** No path matches two of the listed patterns. */
  lemma PatternsExclusive(path: string)
    ensures Matches("/login", path) ==>
              && !Matches("/signup", path) && !Matches("/", path)
              && !Matches("/learning", path) && !Matches("/flashcards", path) && !Matches("/progress", path)
    ensures Matches("/signup", path) ==>
              && !Matches("/", path)
              && !Matches("/learning", path) && !Matches("/flashcards", path) && !Matches("/progress", path)
    ensures Matches("/", path) ==>
              !Matches("/learning", path) && !Matches("/flashcards", path) && !Matches("/progress", path)
    ensures Matches("/learning", path) ==> !Matches("/flashcards", path) && !Matches("/progress", path)
    ensures Matches("/flashcards", path) ==> !Matches("/progress", path)
  {
    if Matches("/login", path) {
      assert LowerAscii(path[1]) == 'l' && LowerAscii(path[2]) == 'o';
    }
    if Matches("/signup", path) {
      assert LowerAscii(path[1]) == 's';
    }
    if Matches("/learning", path) {
      assert LowerAscii(path[1]) == 'l';
    }
    if Matches("/flashcards", path) {
      assert LowerAscii(path[1]) == 'f';
    }
    if Matches("/", path) && |path| > 1 {
      assert path[1] == '/';
    }
  }
}
