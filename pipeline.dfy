/** How the stages compose on a route. Every versioned route registers the
    limiter for its route class, then the version gate for "1.0.0", then its
    validators and controller (the files under server/router). Express runs the
    callbacks in order until one does something other than `next()`. */
module Pipeline {
  import opened Runtime
  import opened RateLimit
  import opened Versioning

  /** The version every router registers. */
  const RouterVersion := "1.0.0"

  /** All stages before the k-th called `next()`, so the k-th one runs. */
  ghost predicate Reaches(stages: seq<Outcome>, k: nat) {
    k <= |stages| && forall i :: 0 <= i < k ==> stages[i] == Proceed
  }

  /** The outcome of a route: the first stage that does not proceed, or
      Proceed (on to the next matching route) when every stage proceeds. */
  function Run(stages: seq<Outcome>): (r: Outcome)
    ensures r == Proceed <==> Reaches(stages, |stages|)
    ensures r != Proceed ==> exists k :: 0 <= k < |stages| && Reaches(stages, k) && stages[k] == r
  {
    if stages == [] then Proceed
    else if stages[0] != Proceed then stages[0]
    else
      var rest := Run(stages[1..]);
      assert Reaches(stages[1..], |stages| - 1) ==> Reaches(stages, |stages|) by {
        if Reaches(stages[1..], |stages| - 1) {
          forall i | 1 <= i < |stages| ensures stages[i] == Proceed {
            assert stages[1..][i - 1] == stages[i];
          }
        }
      }
      assert Reaches(stages, |stages|) ==> Reaches(stages[1..], |stages| - 1) by {
        if Reaches(stages, |stages|) {
          forall i | 0 <= i < |stages| - 1 ensures stages[1..][i] == Proceed {
            assert stages[1..][i] == stages[i + 1];
          }
        }
      }
      assert rest != Proceed ==> exists k :: 0 <= k < |stages| && Reaches(stages, k) && stages[k] == rest by {
        if rest != Proceed {
          var k :| 0 <= k < |stages[1..]| && Reaches(stages[1..], k) && stages[1..][k] == rest;
          forall i | 1 <= i < k + 1 ensures stages[i] == Proceed {
            assert stages[1..][i - 1] == stages[i];
          }
          assert Reaches(stages, k + 1) && stages[k + 1] == rest;
        }
      }
      rest
  }

  /** The limiter middleware `limit(routeClass)`. The rate-limiting library
      counts the client's requests in the current window; `hits` is that count
      including this request, and the handler runs once it exceeds `max`. */
  function Limiter(policy: Policy, hits: nat, userAgent: Option<string>): (r: Outcome)
    ensures r == Proceed <==> hits <= policy.max
    ensures r != Proceed ==> r == RateLimitHandler(policy, userAgent)
  {
    if hits > policy.max then RateLimitHandler(policy, userAgent) else Proceed
  }

  /** The stages of one route: limiter, version gate, then the validators and
      controller, whose combined outcome is `handler`. */
  function Route(routeClass: string, hits: nat, userAgent: Option<string>,
                 version: string, header: Option<string>, eq: SemverEq, handler: Outcome): (r: seq<Outcome>)
    ensures |r| == 3 && r[2] == handler
    ensures Run(r) == if hits > Limit(routeClass).max then RateLimitHandler(Limit(routeClass), userAgent)
                      else if Gate(version, header, eq) != Proceed then Gate(version, header, eq)
                      else handler
  {
    [Limiter(Limit(routeClass), hits, userAgent), Gate(version, header, eq), handler]
  }

  /** The controller runs exactly when the client is within its limit and
      sends the route's version. */
  lemma HandlerReachedIff(routeClass: string, hits: nat, userAgent: Option<string>,
                          version: string, header: Option<string>, eq: SemverEq, handler: Outcome)
    ensures Reaches(Route(routeClass, hits, userAgent, version, header, eq, handler), 2)
        <==> hits <= Limit(routeClass).max && HeaderPresent(header) && eq(header.value, version) == Normal(true)
  {
    var stages := Route(routeClass, hits, userAgent, version, header, eq, handler);
    assert Reaches(stages, 2) <==> stages[0] == Proceed && stages[1] == Proceed;
    assert stages[0] == Proceed <==> hits <= Limit(routeClass).max;
  }

  /** A request without a version header never reaches the controller: it is
      skipped to the next route, or refused by the limiter. */
  lemma MissingVersionSkipsRoute(routeClass: string, hits: nat, userAgent: Option<string>,
                                 version: string, eq: SemverEq, handler: Outcome)
    ensures Run(Route(routeClass, hits, userAgent, version, None, eq, handler))
         == if hits > Limit(routeClass).max then RateLimitHandler(Limit(routeClass), userAgent) else SkipRoute
  {
  }

  /** The limiter runs before the version gate: an over-limit client is
      answered by the rate-limit handler whatever its version header says. */
  lemma OverLimitAnsweredFirst(routeClass: string, hits: nat, userAgent: Option<string>,
                               version: string, header: Option<string>, eq: SemverEq, handler: Outcome)
    requires hits > Limit(routeClass).max
    ensures Run(Route(routeClass, hits, userAgent, version, header, eq, handler)) == RateLimitHandler(Limit(routeClass), userAgent)
  {
  }

  /** Every login attempt after the third in a window, from a client that
      sends no User-Agent or one that is not a bot, is answered 429 with the
      login message. */
  lemma LoginBeyondThirdAttempt(hits: nat, userAgent: Option<string>, header: Option<string>, eq: SemverEq, handler: Outcome)
    requires hits > 3
    requires userAgent.None? || !IsBot(userAgent.value)
    ensures Run(Route("login", hits, userAgent, RouterVersion, header, eq, handler)) == Respond(429, LoginMessage)
  {
  }

  /** An over-limit client whose User-Agent mentions "bot" in any case is refused with 403. */
  lemma OverLimitBotForbidden(routeClass: string, hits: nat, ua: string,
                              version: string, header: Option<string>, eq: SemverEq, handler: Outcome)
    requires hits > Limit(routeClass).max
    requires ContainsFolded(ua, "bot")
    ensures Run(Route(routeClass, hits, Some(ua), version, header, eq, handler)) == Respond(403, BotMessage)
  {
    BotUserAgentForbidden(Limit(routeClass), ua);
  }
}
