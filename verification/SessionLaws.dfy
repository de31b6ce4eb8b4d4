/** What each call on the sign-in sessions needs and what it leaves, and how long a session lasts. */
module SessionLaws {
  import opened Options
  import opened RefreshFamilies

  /** A sign-in is granted exactly to an active user with the right password; it opens one session, at the
      user's version, with one unused token, and changes nothing else. */
  lemma SignInIff(s: Tables, p: Policy, user: nat, verified: bool, family: nat, token: nat, now: nat)
    requires family !in s.families && token !in s.tokens
    ensures var o := Served(s, p, Login(user, verified, family, token), now);
            && (o.reply.Granted? <==> user in s.users && verified && s.users[user].active)
            && (!o.reply.Granted? ==> o == Outcome(s, Refused))
            && (o.reply.Granted? ==>
                  && o.reply == Granted(Claims(user, family, s.users[user].version), token)
                  && o.tables.users == s.users
                  && o.tables.families.Keys == s.families.Keys + {family} && o.tables.tokens.Keys == s.tokens.Keys + {token}
                  && (forall f | f in s.families :: o.tables.families[f] == s.families[f])
                  && (forall k | k in s.tokens :: o.tables.tokens[k] == s.tokens[k])
                  && o.tables.families[family].user == user && o.tables.families[family].version == s.users[user].version
                  && !o.tables.families[family].revoked
                  && o.tables.tokens[token] == Token(family, None, None, false, false, o.tables.families[family].inactivity))
  {
  }

  /** The token, its session and its user are all still good. */
  predicate RefreshDue(s: Tables, token: nat, now: nat) {
    && token in s.tokens && s.tokens[token].family in s.families
    && var record, f := s.tokens[token], s.families[s.tokens[token].family];
    && !record.consumed && !record.revoked && now < record.expires
    && !f.revoked && now < f.absolute && now < f.inactivity
    && f.user in s.users && s.users[f.user].active && s.users[f.user].version == f.version
  }

  /** A refresh is granted exactly when everything is still good, and then replaces the one token and moves the
      session's inactivity on; refused for a known token it revokes the session and its tokens and nothing
      else; an unknown token changes nothing. */
  lemma RefreshIff(s: Tables, p: Policy, token: nat, replacement: nat, now: nat)
    requires replacement !in s.tokens
    ensures var o := Served(s, p, Refresh(token, replacement), now);
            && (o.reply.Granted? <==> RefreshDue(s, token, now))
            && (!o.reply.Granted? ==> o.reply == Refused)
            && o.tables.users == s.users && o.tables.families.Keys == s.families.Keys
            && (token in s.tokens && s.tokens[token].family in s.families ==>
                  var f := s.tokens[token].family;
                  && (forall g | g in s.families && g != f :: o.tables.families[g] == s.families[g])
                  && (if o.reply.Granted? then
                        && o.reply == Granted(Claims(s.families[f].user, f, s.families[f].version), replacement)
                        && o.tables.families[f] == s.families[f].(inactivity := o.tables.families[f].inactivity)
                        && o.tables.tokens.Keys == s.tokens.Keys + {replacement}
                        && o.tables.tokens[token] == s.tokens[token].(consumed := true, replacement := Some(replacement))
                        && o.tables.tokens[replacement] == Token(f, Some(token), None, false, false, o.tables.families[f].inactivity)
                        && (forall k | k in s.tokens && k != token :: o.tables.tokens[k] == s.tokens[k])
                      else
                        FamilyEnded(s, o.tables, f)))
            && (!(token in s.tokens && s.tokens[token].family in s.families) ==> o.tables == s)
  {
  }

  /** The session and its tokens are revoked, and nothing else is changed. */
  ghost predicate FamilyEnded(s: Tables, t: Tables, f: nat)
    requires f in s.families
  {
    && t.users == s.users && t.families == s.families[f := s.families[f].(revoked := true)] && t.tokens.Keys == s.tokens.Keys
    && (forall k | k in s.tokens && s.tokens[k].family == f :: t.tokens[k] == s.tokens[k].(revoked := true))
    && (forall k | k in s.tokens && s.tokens[k].family != f :: t.tokens[k] == s.tokens[k])
  }

  /** Signing out ends the user's own session, and no other. */
  lemma SignOutEndsOne(s: Tables, p: Policy, user: nat, family: nat, now: nat)
    ensures var t := Served(s, p, Logout(user, family), now).tables;
            if family in s.families && s.families[family].user == user then FamilyEnded(s, t, family) else t == s
  {
  }

  /** Ending all of a user's sessions, as signing out everywhere, a password change and disabling do, revokes
      exactly the user's sessions and raises exactly the user's version; disabling also makes the user
      inactive. */
  lemma EndingAllIsExact(s: Tables, p: Policy, call: Call, now: nat)
    requires call.LogoutAll? || call.Disable?
    ensures var t := Served(s, p, call, now).tables;
            if call.user in s.users then
              && t.tokens == s.tokens && t.families.Keys == s.families.Keys
              && t.users == s.users[call.user := t.users[call.user]]
              && t.users[call.user].version == s.users[call.user].version + 1
              && (t.users[call.user].active <==> s.users[call.user].active && !call.Disable?)
              && (forall f | f in s.families && s.families[f].user == call.user :: t.families[f] == s.families[f].(revoked := true))
              && (forall f | f in s.families && s.families[f].user != call.user :: t.families[f] == s.families[f])
            else t == s
  {
  }

  /** A new user is active and has no sessions; an existing one is left alone. */
  lemma CreationIff(s: Tables, p: Policy, user: nat, now: nat)
    ensures var o := Served(s, p, CreateUser(user), now);
            && (o.reply.Done? <==> user !in s.users)
            && o.tables.families == s.families && o.tables.tokens == s.tokens
            && user in o.tables.users && o.tables.users == s.users[user := o.tables.users[user]]
            && (user !in s.users ==> o.tables.users[user].active) && (user in s.users ==> o.tables == s)
  {
  }

  /* How long a session lasts. */

  /** What a sign-in or a refresh grants is good for the inactivity period, but never beyond the session's
      absolute end, which the sign-in sets and no refresh moves: until then, and if nothing else happens no
      longer, the access token authenticates and the refresh token refreshes. */
  lemma GrantLasts(s: Tables, p: Policy, call: Call, now: nat, drawn: nat, later: nat)
    requires Fresh(s, call) && Served(s, p, call, now).reply.Granted?
    ensures var t, claims, token := Served(s, p, call, now).tables, Served(s, p, call, now).reply.claims, Served(s, p, call, now).reply.token;
            && claims.family in t.families && token in t.tokens && t.tokens[token].family == claims.family
            && var end := t.families[claims.family].absolute;
            && (call.Login? ==> claims.family !in s.families && end == now + p.absolute)
            && (call.Refresh? ==> claims.family in s.families && end == s.families[claims.family].absolute && now < end)
            && (Accepted(t, claims, later) <==> later < now + p.inactivity && later < end)
            && (Refreshed(t, p, token, drawn, later).reply.Granted? <==> later < now + p.inactivity && later < end)
  {
  }

  lemma {:induction false} EndStays(s: Tables, p: Policy, calls: seq<Timed>, f: nat)
    requires f in s.families && LegalCalls(s, p, calls)
    ensures f in After(s, p, calls).families && After(s, p, calls).families[f].absolute == s.families[f].absolute
    decreases |calls|
  {
    hide Served, Fresh;
    if calls != [] {
      EndKept(s, p, calls[0].call, calls[0].now, f);
      EndStays(Served(s, p, calls[0].call, calls[0].now).tables, p, calls[1..], f);
    }
  }

  lemma EndKept(s: Tables, p: Policy, call: Call, now: nat, f: nat)
    requires f in s.families && Fresh(s, call)
    ensures f in Served(s, p, call, now).tables.families && Served(s, p, call, now).tables.families[f].absolute == s.families[f].absolute
  {
  }

  /** However often it is refreshed, no session outlives its sign-in by more than the absolute period. */
  lemma NoSessionOutlivesItsEnd(s: Tables, p: Policy, login: Timed, calls: seq<Timed>, claims: Claims, token: nat, drawn: nat, later: nat)
    requires login.call.Login? && Fresh(s, login.call) && Served(s, p, login.call, login.now).reply.Granted?
    requires LegalCalls(Served(s, p, login.call, login.now).tables, p, calls) && later >= login.now + p.absolute
    ensures var t := After(Served(s, p, login.call, login.now).tables, p, calls);
            && (claims.family == login.call.family ==> !Accepted(t, claims, later))
            && (token in t.tokens && t.tokens[token].family == login.call.family ==> Refreshed(t, p, token, drawn, later).reply == Refused)
  {
    GrantLasts(s, p, login.call, login.now, drawn, later);
    EndStays(Served(s, p, login.call, login.now).tables, p, calls, login.call.family);
    hide After, LegalCalls;
  }

  /* Access. */

  /** An access token authenticates exactly while its user is active and still at its version, and its session is
      that user's, of that version, not revoked and in time on both clocks. */
  lemma AccessIff(s: Tables, c: Claims, now: nat)
    ensures Accepted(s, c, now) <==>
              && c.user in s.users && s.users[c.user] == User(true, c.version)
              && c.family in s.families && s.families[c.family].user == c.user && s.families[c.family].version == c.version
              && !s.families[c.family].revoked && now < s.families[c.family].absolute && now < s.families[c.family].inactivity
  {
  }

  /** In order, a session that stands vouches for its user: the claims of its own user and version, in time, are
      accepted exactly if the user is active and nothing has raised the version since the sign-in. */
  lemma OwnClaimsAccepted(s: Tables, f: nat, now: nat)
    requires Inv(s) && f in s.families && !s.families[f].revoked && now < s.families[f].absolute && now < s.families[f].inactivity
    ensures Accepted(s, Claims(s.families[f].user, f, s.families[f].version), now) <==>
              s.users[s.families[f].user].active && s.users[s.families[f].user].version == s.families[f].version
  {
  }
}
