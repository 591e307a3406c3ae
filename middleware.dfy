/** The request gate in front of the pages: a path matcher, the
    authentication wrapper that turns away requests without a token, and
    the inner function that checks roles on admin pages. */
module Middleware {
  import opened Common
  import opened Text

  /** The decoded session token; only its role is consulted. */
  datatype Token = Token(role: string)

  datatype Decision = Pass | Redirect(target: string)

  /** The bases of the `matcher` patterns `<base>/:path*`. */
  const MatchedBases: seq<string> := ["/admin", "/account", "/checkout", "/api/admin"]

  /** `<base>/:path*` matches the base itself and anything below it, and
      nothing else. */
  predicate Below(path: string, base: string) {
    path == base || StartsWith(path, base + "/")
  }

  predicate Matched(path: string) {
    exists k :: 0 <= k < |MatchedBases| && Below(path, MatchedBases[k])
  }

  /** The `authorized` callback: any token will do. */
  predicate Authorized(token: Option<Token>) {
    token.Some?
  }

  /** The inner middleware function, run only for authorised requests. */
  function Inner(path: string, token: Option<Token>): (d: Decision)
    ensures d.Redirect? ==> d.target == "/auth/signin"
    ensures StartsWith(path, "/admin") && !(token.Some? && token.value.role == "ADMIN") ==> d.Redirect?
  {
    if StartsWith(path, "/admin") && !(token.Some? && token.value.role == "ADMIN") then Redirect("/auth/signin")
    else if (StartsWith(path, "/account") || StartsWith(path, "/checkout")) && token.None? then Redirect("/auth/signin")
    else Pass
  }

  /** The whole gate: unmatched paths pass untouched; a matched path without
      a token goes to the authentication library's own sign-in route;
      otherwise the inner function decides. */
  function Gate(path: string, token: Option<Token>): (d: Decision)
    ensures !Matched(path) ==> d == Pass
    ensures d == Redirect("/api/auth/signin") <==> Matched(path) && token.None?
    ensures d.Redirect? ==> Matched(path) && d.target in {"/api/auth/signin", "/auth/signin"}
  {
    if !Matched(path) then Pass
    else if !Authorized(token) then Redirect("/api/auth/signin")
    else Inner(path, token)
  }

  lemma BelowStartsWith(path: string, base: string)
    requires Below(path, base)
    ensures StartsWith(path, base)
  {
    if path != base {
      assert path[..|base|] == (base + "/")[..|base|];
    }
  }

  /** An admin page passes exactly for a token whose role is ADMIN. */
  lemma AdminPagesNeedAdmin(path: string, token: Option<Token>)
    requires Below(path, "/admin")
    ensures Gate(path, token) == Pass <==> token.Some? && token.value.role == "ADMIN"
    ensures token.None? ==> Gate(path, token) == Redirect("/api/auth/signin")
    ensures token.Some? && token.value.role != "ADMIN" ==> Gate(path, token) == Redirect("/auth/signin")
  {
    assert Below(path, MatchedBases[0]);
    BelowStartsWith(path, "/admin");
  }

  /** Account and checkout pages pass exactly when there is a token, of
      any role. */
  lemma BuyerPagesNeedToken(path: string, token: Option<Token>)
    requires Below(path, "/account") || Below(path, "/checkout")
    ensures Gate(path, token) == Pass <==> token.Some?
  {
    if Below(path, "/account") {
      assert Below(path, MatchedBases[1]);
      BelowStartsWith(path, "/account");
      assert !StartsWith(path, "/admin") by {
        assert path[1] == 'a' && path[2] == 'c';
      }
    } else {
      assert Below(path, MatchedBases[2]);
      BelowStartsWith(path, "/checkout");
      assert !StartsWith(path, "/admin") by {
        assert path[1] == 'c';
      }
    }
  }

  /** Admin API paths are only checked for a token here: a BUYER token
      passes, and the role test is left to each handler. */
  lemma AdminApiNeedsOnlyToken(path: string, token: Option<Token>)
    requires Below(path, "/api/admin")
    ensures Gate(path, token) == Pass <==> token.Some?
  {
    assert Below(path, MatchedBases[3]);
    BelowStartsWith(path, "/api/admin");
    assert path[1] == 'a' && path[2] == 'p';
    if StartsWith(path, "/checkout") {
      assert path[1] == "/checkout"[1];
    }
  }

  /** Paths outside the matcher are never redirected. */
  lemma UnmatchedPasses(path: string, token: Option<Token>)
    requires !Matched(path)
    ensures Gate(path, token) == Pass
  {
  }

  /** The inner function's prefix test reaches further than the matcher:
      it would turn a BUYER away from "/administrator", but the matcher
      never sends that path to it, so the page is open even without a
      token. */
  lemma AdministratorIsOutsideTheGate()
    ensures Inner("/administrator", Some(Token("BUYER"))) == Redirect("/auth/signin")
    ensures Gate("/administrator", None) == Pass
  {
    assert StartsWith("/administrator", "/admin") by {
      assert "/administrator"[..|"/admin"|] == "/admin";
    }
    forall k | 0 <= k < |MatchedBases|
      ensures !Below("/administrator", MatchedBases[k])
    {
      if k == 0 {
        assert "/administrator"[6] != ("/admin" + "/")[6];
      } else if k == 1 {
        assert "/administrator"[2] != "/account/"[2];
      } else if k == 2 {
        assert "/administrator"[1] != "/checkout/"[1];
      } else {
        assert "/administrator"[2] != "/api/admin/"[2];
      }
    }
  }

  /** The inner function's own test for account and checkout pages never
      fires: the wrapper has already turned away every request without a
      token. */
  lemma InnerTokenCheckUnreachable(path: string, token: Option<Token>)
    requires Matched(path) && Authorized(token)
    ensures Gate(path, token) == Pass <==> !StartsWith(path, "/admin") || token.value.role == "ADMIN"
  {
  }
}
